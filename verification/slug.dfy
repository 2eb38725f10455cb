/** The install slug of a workspace, and the quoting of a database name in the setup SQL. */
module Slug {
  import opened SqlScanner
  import opened Text

  predicate Alnum(c: char) { ('a' <= c <= 'z') || ('0' <= c <= '9') }

  /** The maximal runs of letters and digits of a text, in order. */
  function Words(s: string): (words: seq<string>)
    ensures s != "" && Alnum(s[|s| - 1]) ==> words != []
  {
    if s == "" then []
    else
      var n := |s| - 1;
      var before := Words(s[..n]);
      if !Alnum(s[n]) then before
      else if n == 0 || !Alnum(s[n - 1]) then before + [[s[n]]]
      else before[|before| - 1 := before[|before| - 1] + [s[n]]]
  }

  predicate Word(w: string) { w != "" && forall j | 0 <= j < |w| :: Alnum(w[j]) }

  predicate AllWords(words: seq<string>) { forall i | 0 <= i < |words| :: Word(words[i]) }

  lemma {:induction false} WordsAreWords(s: string)
    ensures AllWords(Words(s))
  {
    if s != "" {
      WordsAreWords(s[..|s| - 1]);
    }
  }

  /** Words with a single dash between each two. */
  function Dashed(words: seq<string>): string {
    if words == [] then ""
    else if |words| == 1 then words[0]
    else Dashed(words[..|words| - 1]) + "-" + words[|words| - 1]
  }

  function TrimDashesLeft(s: string): string { if s != "" && s[0] == '-' then TrimDashesLeft(s[1..]) else s }

  function TrimDashesRight(s: string): string {
    if s != "" && s[|s| - 1] == '-' then TrimDashesRight(s[..|s| - 1]) else s
  }

  function TrimDashes(s: string): string { TrimDashesRight(TrimDashesLeft(s)) }

  function LowerOf(lower: char -> char, s: string): (l: string)
    ensures |l| == |s| && forall i | 0 <= i < |s| :: l[i] == lower(s[i])
  {
    seq(|s|, i requires 0 <= i < |s| => lower(s[i]))
  }

  lemma {:induction false} DashedEnds(words: seq<string>)
    requires words != [] && AllWords(words)
    ensures var d := Dashed(words); d != "" && Alnum(d[0]) && Alnum(d[|d| - 1])
  {
    if |words| > 1 {
      DashedEnds(words[..|words| - 1]);
    }
  }

  lemma TrimOuterDashes(lead: string, s: string, trail: string)
    requires (lead == "" || lead == "-") && (trail == "" || trail == "-")
    requires s != "" && s[0] != '-' && s[|s| - 1] != '-'
    ensures TrimDashes(lead + s + trail) == s
  {
    var t := s + trail;
    assert lead + s + trail == lead + t;
    assert TrimDashesLeft(lead + t) == t by {
      assert TrimDashesLeft(t) == t;
      if lead == "-" {
        assert (lead + t)[1..] == t;
      } else {
        assert lead + t == t;
      }
    }
    assert TrimDashesRight(s) == s;
    if trail == "-" {
      assert t[|t| - 1] == '-' && t[..|t| - 1] == s;
      assert TrimDashesRight(t) == TrimDashesRight(s);
    } else {
      assert t == s;
    }
  }

  /** What the loop has written for a text: its words, and a dash before and after if other characters stand there. */
  function Written(s: string): string {
    var words := Words(s);
    if s == "" then ""
    else
      (if !Alnum(s[0]) then "-" else "") + Dashed(words) + (if words != [] && !Alnum(s[|s| - 1]) then "-" else "")
  }

  lemma WrittenOther(s: string, c: char)
    requires !Alnum(c)
    ensures Written(s + [c]) == if s == "" || Alnum(s[|s| - 1]) then Written(s) + "-" else Written(s)
  {
    var t := s + [c];
    assert t[..|t| - 1] == s;
    assert Words(t) == Words(s);
    if s == "" {
      assert Words(s) == [];
    } else {
      assert t[0] == s[0];
    }
  }

  lemma DashedSnoc(words: seq<string>, w: string)
    ensures Dashed(words + [w]) == if words == [] then w else Dashed(words) + "-" + w
  {
    assert (words + [w])[..|words|] == words;
  }

  lemma WordsSnoc(s: string, c: char)
    requires Alnum(c)
    ensures Words(s + [c]) ==
            if s == "" || !Alnum(s[|s| - 1]) then Words(s) + [[c]]
            else Words(s)[..|Words(s)| - 1] + [Words(s)[|Words(s)| - 1] + [c]]
  {
    var t := s + [c];
    assert t[..|t| - 1] == s && t[|t| - 1] == c;
    assert s != "" ==> t[|t| - 2] == s[|s| - 1];
  }

  lemma WordBegins(s: string, c: char)
    requires Alnum(c) && (s == "" || !Alnum(s[|s| - 1]))
    ensures Words(s + [c]) == Words(s) + [[c]]
    ensures Words(s) != [] ==> Dashed(Words(s + [c])) == Dashed(Words(s)) + "-" + [c]
    ensures Words(s) == [] ==> Dashed(Words(s + [c])) == [c]
  {
    hide Words, Dashed;
    WordsSnoc(s, c);
    DashedSnoc(Words(s), [c]);
  }

  lemma AppendLast(before: string, w: string, c: char)
    ensures before + (w + [c]) == before + w + [c]
  {
  }

  lemma DashedGrows(before: seq<string>, w: string, c: char)
    ensures Dashed(before + [w + [c]]) == Dashed(before + [w]) + [c]
  {
    DashedSnoc(before, w);
    DashedSnoc(before, w + [c]);
    AppendLast(Dashed(before) + "-", w, c);
  }

  lemma DashedLast(words: seq<string>, c: char)
    requires words != []
    ensures Dashed(words[..|words| - 1] + [words[|words| - 1] + [c]]) == Dashed(words) + [c]
  {
    var n := |words| - 1;
    assert words[..n] + [words[n]] == words;
    DashedGrows(words[..n], words[n], c);
  }

  lemma WordGoesOn(s: string, c: char)
    requires Alnum(c) && s != "" && Alnum(s[|s| - 1])
    ensures Words(s + [c]) != [] && Dashed(Words(s + [c])) == Dashed(Words(s)) + [c]
  {
    hide Words, Dashed;
    WordsSnoc(s, c);
    DashedLast(Words(s), c);
  }

  lemma WrittenAlnum(s: string, c: char)
    requires Alnum(c)
    ensures Written(s + [c]) == Written(s) + [c]
  {
    hide Words, Dashed;
    var t := s + [c];
    if s == "" {
      WordBegins(s, c);
      NoWords();
      assert t[0] == c;
    } else {
      assert t[0] == s[0];
      if Alnum(s[|s| - 1]) {
        WordGoesOn(s, c);
      } else {
        WordBegins(s, c);
        NoDashes();
      }
    }
  }

  lemma NoWords()
    ensures Words("") == []
  {
  }

  lemma NothingWritten()
    ensures Written("") == ""
  {
  }

  lemma NoDashes()
    ensures Dashed([]) == ""
  {
  }

  /** The slug of a name: its words joined by dashes; without any, the fallback, or a fixed name. */
  function SlugOf(name: string, fallback: string, lower: char -> char): string {
    var words := Words(LowerOf(lower, TrimSpace(name)));
    if words != [] then Dashed(words)
    else
      var f := TrimSpace(LowerOf(lower, fallback));
      if f != "" then f else "workspace"
  }

  // ----- what is in a slug

  /** The letters and digits of a text, in order. */
  function KeptOf(s: string): string {
    if s == "" then ""
    else
      var c := s[|s| - 1];
      KeptOf(s[..|s| - 1]) + (if 'a' <= c <= 'z' || '0' <= c <= '9' then [c] else "")
  }

  function Joined(words: seq<string>): string {
    if words == [] then "" else Joined(words[..|words| - 1]) + words[|words| - 1]
  }

  lemma {:induction false} KeptOfTwo(a: string, b: string)
    ensures KeptOf(a + b) == KeptOf(a) + KeptOf(b)
    decreases |b|
  {
    if b == "" {
      assert a + b == a;
    } else {
      var n := |b| - 1;
      assert (a + b)[..|a| + n] == a + b[..n];
      KeptOfTwo(a, b[..n]);
    }
  }

  lemma {:induction false} KeptOfWord(w: string)
    requires forall j | 0 <= j < |w| :: Alnum(w[j])
    ensures KeptOf(w) == w
  {
    if w != "" {
      KeptOfWord(w[..|w| - 1]);
    }
  }

  lemma JoinedSnoc(words: seq<string>, w: string)
    ensures Joined(words + [w]) == Joined(words) + w
  {
    assert (words + [w])[..|words|] == words;
  }

  lemma {:induction false} WordsHoldAll(s: string)
    ensures Joined(Words(s)) == KeptOf(s)
  {
    if s == "" {
    } else {
      var n := |s| - 1;
      WordsHoldAll(s[..n]);
      assert s == s[..n] + [s[n]];
      if Alnum(s[n]) {
        WordsSnoc(s[..n], s[n]);
        OneMoreKept(Words(s[..n]), s[n]);
      }
    }
  }

  lemma OneMoreKept(words: seq<string>, c: char)
    ensures Joined(words + [[c]]) == Joined(words) + [c]
    ensures words != [] ==> Joined(words[..|words| - 1] + [words[|words| - 1] + [c]]) == Joined(words) + [c]
  {
    JoinedSnoc(words, [c]);
    if words != [] {
      var n := |words| - 1;
      JoinedSnoc(words[..n], words[n] + [c]);
      AppendLast(Joined(words[..n]), words[n], c);
    }
  }

  lemma KeptOfDashed(d: string, w: string)
    requires KeptOf(w) == w
    ensures KeptOf(d + "-" + w) == KeptOf(d) + w
  {
    KeptOfTwo(d + "-", w);
    assert (d + "-")[..|d|] == d;
  }

  lemma {:induction false} DashedHoldsAll(words: seq<string>)
    requires AllWords(words)
    ensures KeptOf(Dashed(words)) == Joined(words)
  {
    if words != [] {
      hide KeptOf;
      var n := |words| - 1;
      assert Word(words[n]);
      KeptOfWord(words[n]);
      DashedHoldsAll(words[..n]);
      if n == 0 {
        assert words[..0] == [] && Joined([]) == "" && "" + words[0] == words[0];
      } else {
        KeptOfDashed(Dashed(words[..n]), words[n]);
      }
    }
  }

  /** Letters, digits and single dashes, no dash at either end. */
  predicate SlugShaped(s: string) {
    && (forall i | 0 <= i < |s| :: ('a' <= s[i] <= 'z') || ('0' <= s[i] <= '9') || s[i] == '-')
    && (s != "" ==> s[0] != '-' && s[|s| - 1] != '-')
    && (forall i | 0 <= i < |s| - 1 :: !(s[i] == '-' && s[i + 1] == '-'))
  }

  lemma {:induction false} DashedIsShaped(words: seq<string>)
    requires AllWords(words)
    ensures SlugShaped(Dashed(words))
  {
    if words != [] {
      var n := |words| - 1;
      assert Word(words[n]);
      DashedIsShaped(words[..n]);
      if n > 0 {
        DashedEnds(words[..n]);
        ShapedSnoc(Dashed(words[..n]), words[n]);
      }
    }
  }

  lemma ShapedSnoc(d: string, w: string)
    requires SlugShaped(d) && d != "" && Word(w)
    ensures SlugShaped(d + "-" + w)
  {
    var s := d + "-" + w;
    forall i | 0 <= i < |s|
      ensures s[i] == if i < |d| then d[i] else if i == |d| then '-' else w[i - |d| - 1]
    {
    }
  }

  /**
   The slug of a name with a letter or digit has exactly its letters and digits, lower-cased, in order, with single dashes
   between some of them; any other name has the lower-cased, trimmed fallback, or "workspace" if that is blank.
   */
  lemma SlugKeepsLettersAndDigits(name: string, fallback: string, lower: char -> char)
    ensures var kept := KeptOf(LowerOf(lower, TrimSpace(name)));
            var slug := SlugOf(name, fallback, lower);
            if kept != "" then KeptOf(slug) == kept && SlugShaped(slug)
            else slug == if TrimSpace(LowerOf(lower, fallback)) != "" then TrimSpace(LowerOf(lower, fallback)) else "workspace"
  {
    hide TrimSpace, Words, Dashed;
    var text := LowerOf(lower, TrimSpace(name));
    WordsAreWords(text);
    WordsHoldAll(text);
    DashedHoldsAll(Words(text));
    DashedIsShaped(Words(text));
    if Words(text) != [] {
      assert Word(Words(text)[|Words(text)| - 1]);
    }
  }

  /** One pass over the name writes its slug. */
  method SlugifyWorkspaceName(name: string, fallback: string, lower: char -> char) returns (slug: string)
    ensures slug == SlugOf(name, fallback, lower)
  {
    hide Written, Words, Dashed, TrimDashes, TrimSpace;
    var text := LowerOf(lower, TrimSpace(name));
    NothingWritten();
    var out, lastDash := "", false;
    var i := 0;
    while i < |text|
      invariant 0 <= i <= |text|
      invariant out == Written(text[..i])
      invariant lastDash == (i > 0 && !Alnum(text[i - 1]))
    {
      var c := text[i];
      assert text[..i + 1] == text[..i] + [c];
      if Alnum(c) {
        WrittenAlnum(text[..i], c);
        out := out + [c];
        lastDash := false;
      } else if !lastDash {
        WrittenOther(text[..i], c);
        out := out + "-";
        lastDash := true;
      } else {
        WrittenOther(text[..i], c);
      }
      i := i + 1;
    }
    assert text[..i] == text;
    WrittenTrimmed(text);
    slug := TrimDashes(out);
    if slug == "" {
      slug := TrimSpace(LowerOf(lower, fallback));
    }
    if slug == "" {
      slug := "workspace";
    }
  }

  lemma WrittenTrimmed(s: string)
    ensures TrimDashes(Written(s)) == Dashed(Words(s))
    ensures Dashed(Words(s)) == "" <==> Words(s) == []
  {
    var words := Words(s);
    if words != [] {
      WordsAreWords(s);
      DashedEnds(words);
      TrimOuterDashes(if !Alnum(s[0]) then "-" else "", Dashed(words), if !Alnum(s[|s| - 1]) then "-" else "");
    } else if s != "" {
      assert Written(s) == "" || Written(s) == "-";
      assert TrimDashesLeft("-") == TrimDashesLeft("-"[1..]);
    }
  }

  lemma {:induction false} WordsOfWord(s: string, w: string)
    requires Word(w) && (s == "" || !Alnum(s[|s| - 1]))
    ensures Words(s + w) == Words(s) + [w]
    decreases |w|
  {
    hide Words;
    var n := |w| - 1;
    if n == 0 {
      assert w == [w[0]];
      WordsSnoc(s, w[0]);
    } else {
      WordsOfWord(s, w[..n]);
      assert (s + w[..n])[|s + w[..n]| - 1] == w[n - 1];
      WordsSnoc(s + w[..n], w[n]);
      assert s + w[..n] + [w[n]] == s + w;
      assert w[..n] + [w[n]] == w;
    }
  }

  lemma FrontOfWords(words: seq<string>)
    requires AllWords(words) && words != []
    ensures AllWords(words[..|words| - 1]) && Word(words[|words| - 1])
  {
  }

  lemma WordsBeforeDash(s: string)
    ensures Words(s + "-") == Words(s)
  {
    assert (s + "-")[..|s|] == s;
  }

  lemma {:induction false} WordsOfDashed(words: seq<string>)
    requires AllWords(words)
    ensures Words(Dashed(words)) == words
  {
    if |words| == 1 {
      WordsOfWord("", words[0]);
      assert "" + words[0] == words[0] && [words[0]] == words;
    } else if |words| > 1 {
      var n := |words| - 1;
      hide Words, AllWords, Dashed;
      var before := Dashed(words[..n]) + "-";
      FrontOfWords(words);
      DashedSnoc(words[..n], words[n]);
      WordsOfDashed(words[..n]);
      WordsBeforeDash(Dashed(words[..n]));
      WordsOfWord(before, words[n]);
      assert words[..n] + [words[n]] == words;
    }
  }

  /** `lower` leaves alone what a slug is made of. */
  ghost predicate KeepsSlugs(lower: char -> char) { forall c | Alnum(c) || c == '-' :: lower(c) == c }

  lemma {:induction false} DashedIsPlain(words: seq<string>)
    requires AllWords(words)
    ensures forall i | 0 <= i < |Dashed(words)| :: Alnum(Dashed(words)[i]) || Dashed(words)[i] == '-'
  {
    if |words| > 1 {
      DashedIsPlain(words[..|words| - 1]);
    }
  }

  /** A name with a letter or digit in it has a slug that is its own slug, whatever the fallback. */
  lemma SlugIsIdempotent(name: string, fallback: string, other: string, lower: char -> char)
    requires Words(LowerOf(lower, TrimSpace(name))) != [] && KeepsSlugs(lower)
    ensures SlugOf(SlugOf(name, fallback, lower), other, lower) == SlugOf(name, fallback, lower)
  {
    var words := Words(LowerOf(lower, TrimSpace(name)));
    var d := Dashed(words);
    WordsAreWords(LowerOf(lower, TrimSpace(name)));
    DashedIsPlain(words);
    DashedEnds(words);
    assert TrimLeft(d) == d && TrimRight(d) == d;
    assert LowerOf(lower, d) == d;
    WordsOfDashed(words);
  }

  // ----- the database name in the setup SQL

  const DATABASE_USER := "okta_ai_ro"

  function Doubled(s: string): string {
    if s == "" then "" else (if s[0] == '`' then "``" else [s[0]]) + Doubled(s[1..])
  }

  /** Every two backticks back to one. */
  function Undoubled(s: string): string {
    if s == "" then ""
    else if |s| >= 2 && s[0] == '`' && s[1] == '`' then "`" + Undoubled(s[2..])
    else [s[0]] + Undoubled(s[1..])
  }

  function EscapeMySQLIdentifier(identifier: string): string { Doubled(TrimSpace(identifier)) }

  lemma {:induction false} DoubledIsEscaped(s: string)
    ensures WellEscaped('`', Doubled(s)) && Undoubled(Doubled(s)) == s
  {
    if s != "" {
      var d := Doubled(s);
      DoubledIsEscaped(s[1..]);
      if s[0] == '`' {
        assert d[2..] == Doubled(s[1..]);
        assert "`" + s[1..] == s;
      } else {
        assert d[1..] == Doubled(s[1..]);
        assert [s[0]] + s[1..] == s;
      }
    }
  }

  /**
   Between backticks, an escaped identifier is one quoted span that ends at the last backtick, in any statement where
   no backtick follows; undoing the doubling gives the trimmed name back.
   */
  lemma EscapedIdentifierIsOneSpan(identifier: string, post: string)
    requires Follows('`', post)
    ensures Scan("`" + EscapeMySQLIdentifier(identifier) + "`" + post) == Cons("", Scan(post))
    ensures BodyLength('`', EscapeMySQLIdentifier(identifier) + "`" + post) == |EscapeMySQLIdentifier(identifier)|
    ensures Undoubled(EscapeMySQLIdentifier(identifier)) == TrimSpace(identifier)
  {
    var body := EscapeMySQLIdentifier(identifier);
    DoubledIsEscaped(TrimSpace(identifier));
    var text := "`" + body + "`" + post;
    assert text == "" + (['`'] + body + ['`'] + post);
    SpanTail("", '`', body, post);
    BodyLengthOfBody('`', body, post);
    assert body + "`" + post == body + ['`'] + post;
  }

  lemma {:induction false} BodyLengthOfBody(quote: char, body: string, post: string)
    requires IsQuote(quote) && WellEscaped(quote, body) && Follows(quote, post)
    ensures BodyLength(quote, body + [quote] + post) == |body|
    decreases |body|
  {
    var all := body + [quote] + post;
    if body == "" {
      assert all[0] == quote && (|all| >= 2 ==> all[1] == post[0]);
    } else if (quote != '`' && body[0] == '\\') || body[0] == quote {
      assert all[0] == body[0] && all[1] == body[1];
      assert all[2..] == body[2..] + [quote] + post;
      BodyLengthOfBody(quote, body[2..], post);
    } else {
      assert all[0] == body[0];
      assert all[1..] == body[1..] + [quote] + post;
      BodyLengthOfBody(quote, body[1..], post);
    }
  }

  function Quoted(quote: char, body: string, post: string): string { [quote] + body + [quote] + post }

  /** The account the setup SQL creates, any host, and what follows. */
  function Account(post: string): string { Quoted('\'', DATABASE_USER, "@" + Quoted('\'', "%", post)) }

  function BuildDatabaseSetupSQL(databaseName: string, password: string): string {
    var name, secret := TrimSpace(databaseName), TrimSpace(password);
    if name == "" || secret == "" then ""
    else
      "CREATE USER " + Account(" IDENTIFIED BY " + Quoted('\'', secret,
        GRANT + Quoted('`', EscapeMySQLIdentifier(name), ".* TO " + Account(";\nFLUSH PRIVILEGES;"))))
  }

  const GRANT := ";\nGRANT SELECT, " + "SHOW VIEW ON "

  /** A text without the characters quotes and comments start with. */
  predicate Harmless(run: string) { forall c | c in run :: !IsQuote(c) && c != '#' && c != '/' && c != '-' }

  lemma HarmlessIsClean(run: string)
    requires Harmless(run)
    ensures Clean(run)
  {
    forall i | 0 <= i < |run|
      ensures !IsQuote(run[i]) && !Opens(run[i..])
    {
      assert run[i..][0] == run[i] && run[i] in run;
    }
  }

  lemma SetupIsClean()
    ensures Clean("@") && Clean(".* TO ")
  {
    hide Clean;
    HarmlessIsClean("@");
    HarmlessIsClean(".* TO ");
  }

  lemma CreateIsClean()
    ensures Clean("CREATE USER ")
  {
    hide Clean;
    HarmlessIsClean("CREATE USER ");
  }

  lemma PasswordPartIsClean()
    ensures Clean(" IDENTIFIED BY ")
  {
    hide Clean;
    HarmlessIsClean(" IDENTIFIED BY ");
  }

  lemma FlushIsClean()
    ensures Clean(";\nFLUSH PRIVILEGES;")
  {
    hide Clean;
    HarmlessIsClean(";\nFLUSH PRIVILEGES;");
  }

  lemma GrantIsClean()
    ensures Clean(GRANT)
  {
    hide Clean;
    assert Harmless(";\nGRANT SELECT, ") && Harmless("SHOW VIEW ON ");
    HarmlessIsClean(GRANT);
  }

  lemma UserIsEscaped()
    ensures WellEscaped('\'', DATABASE_USER) && WellEscaped('\'', "%")
  {
  }

  lemma AccountIsRead(run: string, post: string)
    requires Clean(run) && Follows('\'', post)
    ensures Scan(run + Account(post)) == Cons(run, Cons("@", Scan(post)))
  {
    hide Clean;
    UserIsEscaped();
    SetupIsClean();
    SpanTail(run, '\'', DATABASE_USER, "@" + Quoted('\'', "%", post));
    SpanTail("@", '\'', "%", post);
  }

  /**
   Whatever the database name, the setup SQL reads as it is meant to: the name is one quoted span in it, and the text
   outside quotes is always the same.
   */
  lemma SetupSQLReadsAsMeant(databaseName: string, password: string)
    requires TrimSpace(databaseName) != "" && TrimSpace(password) != "" && WellEscaped('\'', TrimSpace(password))
    ensures Scan(BuildDatabaseSetupSQL(databaseName, password)) ==
            Cons("CREATE USER ", Cons("@", Cons(" IDENTIFIED BY ", Cons(GRANT, Cons(".* TO ", Cons("@", Scan(";\nFLUSH PRIVILEGES;")))))))
    ensures Scan(";\nFLUSH PRIVILEGES;") == Scanned(false, [";\nFLUSH PRIVILEGES;"])
  {
    hide Scan, WellEscaped, Clean, TrimSpace, EscapeMySQLIdentifier, Account;
    var name, secret := TrimSpace(databaseName), TrimSpace(password);
    var last := ";\nFLUSH PRIVILEGES;";
    var to := ".* TO " + Account(last);
    var grant := GRANT + Quoted('`', EscapeMySQLIdentifier(name), to);
    SetupIsClean();
    CreateIsClean();
    PasswordPartIsClean();
    FlushIsClean();
    GrantIsClean();
    EscapedIsEscaped(name);
    LastIsRead(last);
    AccountIsRead(".* TO ", last);
    SpanTail(GRANT, '`', EscapeMySQLIdentifier(name), to);
    SpanTail(" IDENTIFIED BY ", '\'', secret, grant);
    AccountIsRead("CREATE USER ", " IDENTIFIED BY " + Quoted('\'', secret, grant));
  }

  lemma Glued(a: string, b: string, c: string, d: string)
    ensures a + (b + (c + d)) == (a + b + c) + d
  {
  }

  lemma QuotedGlued(quote: char, body: string, post: string)
    ensures Quoted(quote, body, post) == [quote] + (body + ([quote] + post))
  {
  }

  lemma AccountText(post: string)
    ensures Account(post) == "'okta_ai_ro'@'%'" + post
  {
  }

  lemma CreateText()
    ensures "CREATE USER " + "'okta_ai_ro'@'%'" + (" IDENTIFIED BY " + "'") == "CREATE USER 'okta_ai_ro'@'%' IDENTIFIED BY '"
  {
  }

  lemma GrantText()
    ensures "'" + GRANT + "`" == "';\nGRANT SELECT, SHOW VIEW ON `"
  {
  }

  lemma EndText()
    ensures "`" + (".* TO " + ("'okta_ai_ro'@'%'" + ";\nFLUSH PRIVILEGES;")) == "`.* TO 'okta_ai_ro'@'%';\nFLUSH PRIVILEGES;"
  {
  }

  lemma SetupIsGlued(create: string, account: string, identified: string, secret: string, grant: string, name: string, last: string)
    ensures create + (account + (identified + (['\''] + (secret + (['\''] + (grant + (['`'] + (name + last)))))))) ==
            (create + account + (identified + "'")) + (secret + (("'" + grant + "`") + (name + last)))
  {
    Glued(['\''], grant, ['`'], name + last);
    Glued(create, account, identified + "'", secret + (("'" + grant + "`") + (name + last)));
    assert identified + (['\''] + (secret + (("'" + grant + "`") + (name + last)))) ==
           (identified + "'") + (secret + (("'" + grant + "`") + (name + last)));
  }

  /** The setup SQL, word by word; none without a database name or a password. */
  lemma SetupSQLText(databaseName: string, password: string)
    ensures BuildDatabaseSetupSQL(databaseName, password) ==
            if TrimSpace(databaseName) == "" || TrimSpace(password) == "" then ""
            else
              "CREATE USER 'okta_ai_ro'@'%' IDENTIFIED BY '"
              + (TrimSpace(password)
                 + ("';\nGRANT SELECT, SHOW VIEW ON `"
                    + (EscapeMySQLIdentifier(TrimSpace(databaseName)) + "`.* TO 'okta_ai_ro'@'%';\nFLUSH PRIVILEGES;")))
  {
    hide TrimSpace, EscapeMySQLIdentifier, Account, Quoted;
    var name, secret := EscapeMySQLIdentifier(TrimSpace(databaseName)), TrimSpace(password);
    var last := ";\nFLUSH PRIVILEGES;";
    var to := ".* TO " + Account(last);
    var grant := GRANT + Quoted('`', name, to);
    AccountText(last);
    AccountText(" IDENTIFIED BY " + Quoted('\'', secret, grant));
    QuotedGlued('`', name, to);
    QuotedGlued('\'', secret, grant);
    SetupIsGlued("CREATE USER ", "'okta_ai_ro'@'%'", " IDENTIFIED BY ", secret, GRANT, name, ['`'] + to);
    CreateText();
    GrantText();
    EndText();
  }

  lemma EscapedIsEscaped(name: string)
    ensures WellEscaped('`', EscapeMySQLIdentifier(name))
  {
    DoubledIsEscaped(TrimSpace(name));
  }

  lemma LastIsRead(run: string)
    requires Clean(run)
    ensures Scan(run) == Scanned(false, [run])
  {
    RunIsRead("", run, "");
    assert run + "" == run && "" + run == run;
  }

  predicate UrlSafe(c: char) { ('a' <= c <= 'z') || ('A' <= c <= 'Z') || ('0' <= c <= '9') || c == '-' || c == '_' }

  /** A generated password is made of letters, digits, dashes and underscores, and so is well escaped as it is. */
  lemma {:induction false} GeneratedPasswordIsEscaped(secret: string)
    requires forall i | 0 <= i < |secret| :: UrlSafe(secret[i])
    ensures WellEscaped('\'', secret)
  {
    if secret != "" {
      GeneratedPasswordIsEscaped(secret[1..]);
    }
  }
}
