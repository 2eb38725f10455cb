/**
 The lexer that separates quoted text from the rest of a statement, by the quoting rules of sections 9.1.1 and 9.2
 and the comment rules of section 9.7 of the MySQL 8.0 Reference Manual.  A text is a sequence of characters: every
 byte the lexer looks for is ASCII, and no such byte occurs inside the encoding of another character.
 */
module SqlScanner {
  datatype Mode = Normal | Single | Double | Backtick

  predicate IsQuote(ch: char) { ch == '\'' || ch == '"' || ch == '`' }

  /** The mode a quote character opens. */
  function ModeOf(quote: char): (mode: Mode)
    requires IsQuote(quote)
    ensures mode != Normal && QuoteOf(mode) == quote
  {
    if quote == '\'' then Single else if quote == '"' then Double else Backtick
  }

  function QuoteOf(mode: Mode): char
    requires mode != Normal
  {
    match mode
    case Single => '\''
    case Double => '"'
    case Backtick => '`'
  }

  predicate IsSpaceOrControl(ch: char) {
    ch == ' ' || ch == '\t' || ch == '\n' || ch == '\r' || ch == '\U{0C}' || ch == '\U{0B}'
  }

  /** A comment starts at the head of `rest`. */
  predicate Opens(rest: string) {
    || (|rest| >= 1 && rest[0] == '#')
    || (|rest| >= 2 && rest[0] == '/' && rest[1] == '*')
    || (|rest| >= 3 && rest[0] == '-' && rest[1] == '-' && IsSpaceOrControl(rest[2]))
  }

  /** Inside quotes: a backslash (not between backticks) takes the next character with it, and so does a doubled quote. */
  predicate Skips(mode: Mode, rest: string)
    requires mode != Normal
  {
    |rest| >= 2 && ((mode != Backtick && rest[0] == '\\') || (rest[0] == QuoteOf(mode) && rest[1] == QuoteOf(mode)))
  }

  /** What a scan comes to: whether it stopped at a comment, and the outside-quote fragments it went through. */
  datatype Scanned = Scanned(stopped: bool, fragments: seq<string>)

  function Cons(fragment: string, s: Scanned): Scanned { s.(fragments := [fragment] + s.fragments) }

  /** The scan of `rest` in `mode`, with `run` the outside text since the last quote. */
  function ScanFrom(mode: Mode, run: string, rest: string): Scanned
    decreases |rest|
  {
    if rest == "" then Scanned(false, if mode == Normal then [run] else [])
    else if mode == Normal then
      if IsQuote(rest[0]) then Cons(run, ScanFrom(ModeOf(rest[0]), "", rest[1..]))
      else if Opens(rest) then Scanned(true, [])
      else ScanFrom(Normal, run + [rest[0]], rest[1..])
    else if Skips(mode, rest) then ScanFrom(mode, "", rest[2..])
    else ScanFrom(if rest[0] == QuoteOf(mode) then Normal else mode, "", rest[1..])
  }

  function Scan(text: string): Scanned { ScanFrom(Normal, "", text) }

  ghost function Join(before: seq<string>, s: Scanned): Scanned { s.(fragments := before + s.fragments) }

  /**
   The scan loop.  `fragments` are the texts handed to the callback, in order; the scan ends as soon as the callback
   says so or a comment starts.  (The source's flag for keeping the width of quoted text has no effect in it.)
   */
  method ScanOutsideQuotes(text: string, outsideFn: string -> bool) returns (found: bool, fragments: seq<string>)
    ensures fragments <= Scan(text).fragments
    ensures forall k | 0 <= k < |fragments| - 1 :: !outsideFn(fragments[k])
    ensures found <==> Scan(text).stopped || exists k | 0 <= k < |Scan(text).fragments| :: outsideFn(Scan(text).fragments[k])
    ensures (forall k | 0 <= k < |Scan(text).fragments| :: !outsideFn(Scan(text).fragments[k])) ==> fragments == Scan(text).fragments
  {
    hide ScanFrom, Scan, Join, IsSpaceOrControl, Opens, Skips;
    ScanStarts(text);
    var mode, start, i := Normal, 0, 0;
    fragments := [];
    ghost var run := "";
    while i < |text|
      invariant 0 <= start <= i <= |text|
      invariant run == if mode == Normal then text[start..i] else ""
      invariant forall k | 0 <= k < |fragments| :: !outsideFn(fragments[k])
      invariant Scan(text) == Join(fragments, ScanFrom(mode, run, text[i..]))
    {
      var ch := text[i];
      ghost var rest := text[i..];
      assert rest[0] == ch && text[i + 1..] == rest[1..];
      assert i + 1 < |text| ==> text[i + 2..] == rest[2..];
      OpensAt(text, i);
      if mode != Normal {
        SkipsAt(mode, text, i);
      }
      ScanStep(mode, run, rest);
      JoinKeeps(fragments, ScanFrom(mode, run, rest));
      match mode {
      case Normal =>
        if ch == '\'' || ch == '"' || ch == '`' {
          JoinCons(fragments, run, ScanFrom(ModeOf(ch), "", rest[1..]));
          JoinKeeps(fragments + [run], ScanFrom(ModeOf(ch), "", rest[1..]));
          fragments := fragments + [text[start..i]];
          if outsideFn(text[start..i]) {
            assert Scan(text).fragments[|fragments| - 1] == text[start..i];
            return true, fragments;
          }
          mode, start, run := ModeOf(ch), i, "";
        } else if ch == '#' {
          return true, fragments;
        } else if ch == '/' && i + 1 < |text| && text[i + 1] == '*' {
          return true, fragments;
        } else if ch == '-' && i + 2 < |text| && text[i + 1] == '-' && IsSpaceOrControl(text[i + 2]) {
          return true, fragments;
        } else {
          run := run + [ch];
          assert run == text[start..i + 1];
        }
      case _ =>
        if i + 1 < |text| && ((mode != Backtick && ch == '\\') || (ch == QuoteOf(mode) && text[i + 1] == QuoteOf(mode))) {
          i := i + 1;
        } else if ch == QuoteOf(mode) {
          mode, start := Normal, i + 1;
        }
      }
      i := i + 1;
    }
    assert text[i..] == "";
    ScanEnds(mode, run);
    JoinKeeps(fragments, ScanFrom(mode, run, ""));
    if mode == Normal {
      assert text[start..i] == text[start..];
      fragments := fragments + [text[start..]];
      assert Scan(text) == Scanned(false, fragments);
      assert Scan(text).fragments[|fragments| - 1] == text[start..];
      return outsideFn(text[start..]), fragments;
    }
    return false, fragments;
  }

  lemma ScanStep(mode: Mode, run: string, rest: string)
    requires rest != ""
    ensures mode == Normal ==>
              ScanFrom(mode, run, rest) ==
                if IsQuote(rest[0]) then Cons(run, ScanFrom(ModeOf(rest[0]), "", rest[1..]))
                else if Opens(rest) then Scanned(true, [])
                else ScanFrom(Normal, run + [rest[0]], rest[1..])
    ensures mode != Normal ==>
              ScanFrom(mode, run, rest) ==
                if Skips(mode, rest) then ScanFrom(mode, "", rest[2..])
                else ScanFrom(if rest[0] == QuoteOf(mode) then Normal else mode, "", rest[1..])
  {
  }

  lemma ScanEnds(mode: Mode, run: string)
    ensures ScanFrom(mode, run, "") == Scanned(false, if mode == Normal then [run] else [])
  {
  }

  lemma OpensAt(text: string, i: nat)
    requires i < |text|
    ensures Opens(text[i..]) <==>
            || text[i] == '#'
            || (text[i] == '/' && i + 1 < |text| && text[i + 1] == '*')
            || (text[i] == '-' && i + 2 < |text| && text[i + 1] == '-' && IsSpaceOrControl(text[i + 2]))
  {
  }

  lemma SkipsAt(mode: Mode, text: string, i: nat)
    requires i < |text| && mode != Normal
    ensures Skips(mode, text[i..]) <==>
            i + 1 < |text| && ((mode != Backtick && text[i] == '\\') || (text[i] == QuoteOf(mode) && text[i + 1] == QuoteOf(mode)))
  {
  }

  lemma ScanStarts(text: string)
    ensures Scan(text) == Join([], ScanFrom(Normal, "", text[0..]))
  {
    assert text[0..] == text;
    assert [] + Scan(text).fragments == Scan(text).fragments;
  }

  lemma JoinKeeps(before: seq<string>, s: Scanned)
    ensures Join(before, s).stopped == s.stopped && Join(before, s).fragments == before + s.fragments
  {
  }

  lemma JoinCons(before: seq<string>, fragment: string, s: Scanned)
    ensures Join(before, Cons(fragment, s)) == Join(before + [fragment], s)
  {
    assert before + ([fragment] + s.fragments) == before + [fragment] + s.fragments;
  }

  // ----- comments

  /** The mode position `k` of `rest` is read in; none if it is the second character of a pair.  Comments play no part. */
  function ModeAt(mode: Mode, rest: string, k: nat): (at: seq<Mode>)
    requires k <= |rest|
    ensures |at| <= 1
    decreases |rest|
  {
    if k == 0 then [mode]
    else if mode == Normal then ModeAt(if IsQuote(rest[0]) then ModeOf(rest[0]) else Normal, rest[1..], k - 1)
    else if Skips(mode, rest) then (if k == 1 then [] else ModeAt(mode, rest[2..], k - 2))
    else ModeAt(if rest[0] == QuoteOf(mode) then Normal else mode, rest[1..], k - 1)
  }

  /** A comment starts at a position outside quotes. */
  predicate CommentOutside(mode: Mode, rest: string) {
    exists k | 0 <= k < |rest| :: ModeAt(mode, rest, k) == [Normal] && Opens(rest[k..])
  }

  lemma ModeAtLater(mode: Mode, rest: string, step: nat, next: Mode, k: nat)
    requires rest != "" && k <= |rest|
    requires step == if mode != Normal && Skips(mode, rest) then 2 else 1
    requires next == if mode == Normal then (if IsQuote(rest[0]) then ModeOf(rest[0]) else Normal)
                     else if step == 1 && rest[0] == QuoteOf(mode) then Normal else mode
    ensures ModeAt(mode, rest, k) == if k == 0 then [mode] else if k < step then [] else ModeAt(next, rest[step..], k - step)
  {
  }

  lemma LaterCommentIsOutside(mode: Mode, rest: string, step: nat, next: Mode)
    requires rest != ""
    requires step == if mode != Normal && Skips(mode, rest) then 2 else 1
    requires next == if mode == Normal then (if IsQuote(rest[0]) then ModeOf(rest[0]) else Normal)
                     else if step == 1 && rest[0] == QuoteOf(mode) then Normal else mode
    requires CommentOutside(next, rest[step..])
    ensures CommentOutside(mode, rest)
  {
    hide Opens, ModeAt;
    var later := rest[step..];
    var k :| 0 <= k < |later| && ModeAt(next, later, k) == [Normal] && Opens(later[k..]);
    assert later[k..] == rest[k + step..];
    ModeAtLater(mode, rest, step, next, k + step);
  }

  /** If no comment starts where the scan is, it starts outside quotes later on, or not at all. */
  lemma CommentIsLater(mode: Mode, rest: string, step: nat, next: Mode)
    requires rest != "" && !(mode == Normal && Opens(rest))
    requires step == if mode != Normal && Skips(mode, rest) then 2 else 1
    requires next == if mode == Normal then (if IsQuote(rest[0]) then ModeOf(rest[0]) else Normal)
                     else if step == 1 && rest[0] == QuoteOf(mode) then Normal else mode
    ensures CommentOutside(mode, rest) <==> CommentOutside(next, rest[step..])
  {
    hide Opens, ModeAt;
    var later := rest[step..];
    if CommentOutside(next, later) {
      LaterCommentIsOutside(mode, rest, step, next);
    }
    if CommentOutside(mode, rest) {
      var k :| 0 <= k < |rest| && ModeAt(mode, rest, k) == [Normal] && Opens(rest[k..]);
      assert rest[0..] == rest;
      ModeAtLater(mode, rest, step, next, k);
      assert later[k - step..] == rest[k..];
    }
  }

  /** The scan stops exactly when a comment starts outside quotes. */
  lemma {:induction false} StopsAtComment(mode: Mode, run: string, rest: string)
    ensures ScanFrom(mode, run, rest).stopped <==> CommentOutside(mode, rest)
    decreases |rest|
  {
    if rest == "" {
    } else if mode == Normal && Opens(rest) {
      assert ModeAt(mode, rest, 0) == [Normal] && rest[0..] == rest;
    } else {
      var step := if mode != Normal && Skips(mode, rest) then 2 else 1;
      var next := if mode == Normal then (if IsQuote(rest[0]) then ModeOf(rest[0]) else Normal)
                  else if step == 1 && rest[0] == QuoteOf(mode) then Normal else mode;
      StopsAtComment(next, if mode == Normal && next == Normal then run + [rest[0]] else "", rest[step..]);
      hide CommentOutside;
      CommentIsLater(mode, rest, step, next);
    }
  }

  predicate OccursAt(s: string, sub: string, i: nat) { i + |sub| <= |s| && s[i..i + |sub|] == sub }

  predicate Contains(s: string, sub: string) { exists i: nat | i <= |s| :: OccursAt(s, sub, i) }

  /** What the callback of the comment check looks for in a fragment. */
  predicate LooksCommented(fragment: string) {
    Contains(fragment, "#") || Contains(fragment, "/*") || Contains(fragment, "-- ")
  }

  /** No comment starts anywhere in `run`, whatever follows it. */
  predicate Clean(run: string) { forall i | 0 <= i < |run| :: !IsQuote(run[i]) && !Opens(run[i..]) }

  lemma OccurrenceOpens(run: string, sub: string, i: nat)
    requires (sub == "#" || sub == "/*" || sub == "-- ") && OccursAt(run, sub, i)
    ensures i < |run| && Opens(run[i..])
  {
    assert forall j | 0 <= j < |sub| :: run[i..][j] == run[i..i + |sub|][j];
  }

  lemma CleanHasNone(run: string, sub: string, i: nat)
    requires Clean(run) && (sub == "#" || sub == "/*" || sub == "-- ")
    ensures !OccursAt(run, sub, i)
  {
    if OccursAt(run, sub, i) {
      OccurrenceOpens(run, sub, i);
    }
  }

  lemma CleanIsNotCommented(run: string)
    requires Clean(run)
    ensures !LooksCommented(run)
  {
    forall i: nat
      ensures !OccursAt(run, "#", i) && !OccursAt(run, "/*", i) && !OccursAt(run, "-- ", i)
    {
      CleanHasNone(run, "#", i);
      CleanHasNone(run, "/*", i);
      CleanHasNone(run, "-- ", i);
    }
  }

  /** A comment in what was read so far would have been seen: a comment opener has no quote in it. */
  lemma CleanGrows(run: string, rest: string)
    requires rest != "" && !IsQuote(rest[0])
    requires forall i | 0 <= i < |run| :: !IsQuote(run[i]) && !Opens(run[i..] + rest)
    requires !Opens(rest)
    ensures forall i | 0 <= i < |run + [rest[0]]| ::
              !IsQuote((run + [rest[0]])[i]) && !Opens((run + [rest[0]])[i..] + rest[1..])
  {
    forall i | 0 <= i < |run + [rest[0]]|
      ensures !IsQuote((run + [rest[0]])[i]) && !Opens((run + [rest[0]])[i..] + rest[1..])
    {
      if i < |run| {
        assert (run + [rest[0]])[i..] + rest[1..] == run[i..] + rest;
      } else {
        assert (run + [rest[0]])[i..] + rest[1..] == rest;
      }
    }
  }

  lemma OpensInPrefix(run: string, rest: string)
    requires forall i | 0 <= i < |run| :: !IsQuote(run[i]) && !Opens(run[i..] + rest)
    ensures Clean(run)
  {
    forall i | 0 <= i < |run|
      ensures !Opens(run[i..])
    {
      if Opens(run[i..]) {
        assert Opens(run[i..] + rest);
      }
    }
  }

  /** Every fragment the scan goes through is free of quotes and of comment openers. */
  lemma {:induction false} FragmentsAreClean(mode: Mode, run: string, rest: string)
    requires mode == Normal ==> forall i | 0 <= i < |run| :: !IsQuote(run[i]) && !Opens(run[i..] + rest)
    ensures forall k | 0 <= k < |ScanFrom(mode, run, rest).fragments| :: Clean(ScanFrom(mode, run, rest).fragments[k])
    decreases |rest|
  {
    if rest == "" {
      if mode == Normal { OpensInPrefix(run, rest); }
    } else if mode == Normal {
      OpensInPrefix(run, rest);
      if IsQuote(rest[0]) {
        FragmentsAreClean(ModeOf(rest[0]), "", rest[1..]);
      } else if !Opens(rest) {
        CleanGrows(run, rest);
        FragmentsAreClean(Normal, run + [rest[0]], rest[1..]);
      }
    } else if Skips(mode, rest) {
      FragmentsAreClean(mode, "", rest[2..]);
    } else {
      FragmentsAreClean(if rest[0] == QuoteOf(mode) then Normal else mode, "", rest[1..]);
    }
  }

  /** The callback of the comment check never has anything to say: the scan has seen every comment before it. */
  lemma CallbackNeverFinds(text: string, k: nat)
    requires k < |Scan(text).fragments|
    ensures !LooksCommented(Scan(text).fragments[k])
  {
    FragmentsAreClean(Normal, "", text);
    CleanIsNotCommented(Scan(text).fragments[k]);
  }

  /** A statement is turned away for comments exactly when a comment starts outside its quotes. */
  method HasCommentToken(text: string) returns (found: bool)
    ensures found <==> CommentOutside(Normal, text)
  {
    ghost var s := Scan(text);
    forall k | 0 <= k < |s.fragments|
      ensures !LooksCommented(s.fragments[k])
    {
      CallbackNeverFinds(text, k);
    }
    StopsAtComment(Normal, "", text);
    var fragments;
    found, fragments := ScanOutsideQuotes(text, LooksCommented);
  }

  // ----- what the fragments are

  /** `body` may stand between two `quote`s: whatever could end it early is escaped or doubled. */
  predicate WellEscaped(quote: char, body: string)
    requires IsQuote(quote)
    decreases |body|
  {
    body == "" ||
    if (quote != '`' && body[0] == '\\') || body[0] == quote then
      |body| >= 2 && (body[0] == quote ==> body[1] == quote) && WellEscaped(quote, body[2..])
    else WellEscaped(quote, body[1..])
  }

  /** `rest` never ends a span that `quote` opened. */
  predicate NeverCloses(quote: char, rest: string)
    requires IsQuote(quote)
    decreases |rest|
  {
    rest == "" ||
    if Skips(ModeOf(quote), rest) then NeverCloses(quote, rest[2..])
    else rest[0] != quote && NeverCloses(quote, rest[1..])
  }

  /** A text as its author meant it: outside text, then a quoted span, and so on; the last span may be unfinished. */
  datatype Layout =
    | End(run: string)
    | Unfinished(run: string, quote: char, rest: string)
    | Span(run: string, quote: char, body: string, next: Layout)

  function Render(t: Layout): string {
    match t
    case End(run) => run
    case Unfinished(run, quote, rest) => run + [quote] + rest
    case Span(run, quote, body, next) => run + ([quote] + body + [quote] + Render(next))
  }

  /** The outside texts of a layout, in order; an unfinished span adds nothing of its own. */
  function Runs(t: Layout): seq<string> {
    match t
    case End(run) => [run]
    case Unfinished(run, _, _) => [run]
    case Span(run, _, _, next) => [run] + Runs(next)
  }

  predicate Follows(quote: char, text: string) { text == "" || text[0] != quote }

  predicate Sound(t: Layout) {
    && Clean(t.run)
    && match t
       case End(_) => true
       case Unfinished(_, quote, rest) => IsQuote(quote) && NeverCloses(quote, rest)
       case Span(_, quote, body, next) =>
         IsQuote(quote) && WellEscaped(quote, body) && Follows(quote, Render(next)) && Sound(next)
  }

  /** Outside text is read up to the quote that ends it, or to the end. */
  lemma {:induction false} RunIsRead(before: string, run: string, rest: string)
    requires Clean(run) && (rest == "" || IsQuote(rest[0]))
    ensures ScanFrom(Normal, before, run + rest) == ScanFrom(Normal, before + run, rest)
    decreases |run|
  {
    if run == "" {
      assert run + rest == rest && before + run == before;
    } else {
      var all := run + rest;
      assert all[1..] == run[1..] + rest;
      assert before + [run[0]] + run[1..] == before + run;
      assert !Opens(all) by {
        assert !Opens(run[0..]) && run[0..] == run;
      }
      forall i | 0 <= i < |run[1..]|
        ensures !IsQuote(run[1..][i]) && !Opens(run[1..][i..])
      {
        assert run[1..][i..] == run[i + 1..];
      }
      RunIsRead(before + [run[0]], run[1..], rest);
    }
  }

  /** A quoted span is read to its own closing quote, whatever is in it. */
  lemma {:induction false} SpanIsRead(quote: char, body: string, post: string)
    requires IsQuote(quote) && WellEscaped(quote, body) && Follows(quote, post)
    ensures ScanFrom(ModeOf(quote), "", body + [quote] + post) == ScanFrom(Normal, "", post)
    decreases |body|
  {
    var all := body + [quote] + post;
    if body == "" {
      assert all[0] == quote && all[1..] == post;
      assert |all| >= 2 ==> all[1] == post[0];
    } else if (quote != '`' && body[0] == '\\') || body[0] == quote {
      assert all[2..] == body[2..] + [quote] + post;
      SpanIsRead(quote, body[2..], post);
    } else {
      assert all[1..] == body[1..] + [quote] + post;
      SpanIsRead(quote, body[1..], post);
    }
  }

  lemma {:induction false} UnfinishedIsRead(quote: char, rest: string)
    requires IsQuote(quote) && NeverCloses(quote, rest)
    ensures ScanFrom(ModeOf(quote), "", rest) == Scanned(false, [])
    decreases |rest|
  {
    if rest == "" {
    } else if Skips(ModeOf(quote), rest) {
      UnfinishedIsRead(quote, rest[2..]);
    } else {
      UnfinishedIsRead(quote, rest[1..]);
    }
  }

  lemma SpanTail(run: string, quote: char, body: string, post: string)
    requires Clean(run) && IsQuote(quote) && WellEscaped(quote, body) && Follows(quote, post)
    ensures Scan(run + ([quote] + body + [quote] + post)) == Cons(run, Scan(post))
  {
    var tail := [quote] + body + [quote] + post;
    RunIsRead("", run, tail);
    assert "" + run == run && tail[1..] == body + [quote] + post;
    SpanIsRead(quote, body, post);
  }

  /** Whatever way a text is laid out, the scan goes through exactly its outside texts, in order. */
  lemma {:induction false} ScanReadsLayout(t: Layout)
    requires Sound(t)
    ensures Scan(Render(t)) == Scanned(false, Runs(t))
    decreases t
  {
    match t
    case End(run) =>
      RunIsRead("", run, "");
      assert run + "" == run && "" + run == run;
    case Unfinished(run, quote, rest) =>
      RunIsRead("", run, [quote] + rest);
      assert run + ([quote] + rest) == run + [quote] + rest && "" + run == run;
      assert ([quote] + rest)[1..] == rest;
      UnfinishedIsRead(quote, rest);
    case Span(run, quote, body, next) =>
      SpanTail(run, quote, body, Render(next));
      ScanReadsLayout(next);
  }

  /** The layout the scan sees: the span a text starts with, up to its closing quote; None if it never closes. */
  function BodyLength(quote: char, text: string): (n: int)
    requires IsQuote(quote)
    ensures -1 <= n < |text|
    decreases |text|
  {
    if text == "" then -1
    else if Skips(ModeOf(quote), text) then
      var n := BodyLength(quote, text[2..]); if n < 0 then -1 else n + 2
    else if text[0] == quote then 0
    else var n := BodyLength(quote, text[1..]); if n < 0 then -1 else n + 1
  }

  lemma EscapeInFront(quote: char, text: string, n: nat)
    requires IsQuote(quote) && Skips(ModeOf(quote), text) && n < |text| - 2 && WellEscaped(quote, text[2..][..n])
    ensures WellEscaped(quote, text[..n + 2]) && text[2..][n] == text[n + 2] && text[2..][n + 1..] == text[n + 3..]
  {
    assert text[..n + 2][2..] == text[2..][..n];
  }

  lemma PlainInFront(quote: char, text: string, n: nat)
    requires IsQuote(quote) && n < |text| - 1 && !Skips(ModeOf(quote), text) && text[0] != quote
    requires WellEscaped(quote, text[1..][..n])
    ensures WellEscaped(quote, text[..n + 1]) && text[1..][n] == text[n + 1] && text[1..][n + 1..] == text[n + 2..]
  {
    assert text[..n + 1][1..] == text[1..][..n];
  }

  lemma {:induction false} BodyIsWellEscaped(quote: char, text: string)
    requires IsQuote(quote)
    ensures var n := BodyLength(quote, text);
            if n < 0 then NeverCloses(quote, text)
            else WellEscaped(quote, text[..n]) && text[n] == quote && Follows(quote, text[n + 1..])
    decreases |text|
  {
    var n := BodyLength(quote, text);
    if text == "" {
    } else if Skips(ModeOf(quote), text) {
      BodyIsWellEscaped(quote, text[2..]);
      if n >= 0 {
        EscapeInFront(quote, text, n - 2);
      }
    } else if text[0] == quote {
    } else {
      BodyIsWellEscaped(quote, text[1..]);
      if n >= 0 {
        PlainInFront(quote, text, n - 1);
      }
    }
  }

  function LayoutFrom(run: string, rest: string): Layout
    decreases |rest|
  {
    if rest == "" then End(run)
    else if IsQuote(rest[0]) then
      var n := BodyLength(rest[0], rest[1..]);
      if n < 0 then Unfinished(run, rest[0], rest[1..])
      else Span(run, rest[0], rest[1..][..n], LayoutFrom("", rest[1..][n + 1..]))
    else LayoutFrom(run + [rest[0]], rest[1..])
  }

  lemma SpanAgain(rest: string, n: nat)
    requires n + 1 < |rest| && rest[1..][n] == rest[0]
    ensures [rest[0]] + rest[1..][..n] + [rest[0]] + rest[1..][n + 1..] == rest
  {
  }

  lemma {:induction false} LayoutRenders(run: string, rest: string)
    ensures Render(LayoutFrom(run, rest)) == run + rest
    decreases |rest|
  {
    if rest == "" {
    } else if IsQuote(rest[0]) {
      var text := rest[1..];
      var n := BodyLength(rest[0], text);
      BodyIsWellEscaped(rest[0], text);
      if n >= 0 {
        LayoutRenders("", text[n + 1..]);
        SpanAgain(rest, n);
        assert "" + text[n + 1..] == text[n + 1..];
      } else {
        assert run + [rest[0]] + text == run + rest;
      }
    } else {
      LayoutRenders(run + [rest[0]], rest[1..]);
      assert run + [rest[0]] + rest[1..] == run + rest;
    }
  }

  /** Skipping a whole span, the scan has not stopped in it. */
  lemma SpanThenRest(quote: char, text: string)
    requires IsQuote(quote) && BodyLength(quote, text) >= 0
    ensures ScanFrom(ModeOf(quote), "", text) == ScanFrom(Normal, "", text[BodyLength(quote, text) + 1..])
  {
    hide ScanFrom, WellEscaped, NeverCloses, BodyLength;
    var n := BodyLength(quote, text);
    BodyIsWellEscaped(quote, text);
    SpanIsRead(quote, text[..n], text[n + 1..]);
    assert text == text[..n] + [quote] + text[n + 1..];
  }

  lemma {:induction false} LayoutIsSound(run: string, rest: string)
    requires !ScanFrom(Normal, run, rest).stopped
    requires forall i | 0 <= i < |run| :: !IsQuote(run[i]) && !Opens(run[i..] + rest)
    ensures Sound(LayoutFrom(run, rest))
    decreases |rest|
  {
    OpensInPrefix(run, rest);
    if rest == "" {
    } else if IsQuote(rest[0]) {
      var text := rest[1..];
      var n := BodyLength(rest[0], text);
      BodyIsWellEscaped(rest[0], text);
      if n >= 0 {
        SpanThenRest(rest[0], text);
        LayoutIsSound("", text[n + 1..]);
        LayoutRenders("", text[n + 1..]);
        assert "" + text[n + 1..] == text[n + 1..];
      }
    } else {
      CleanGrows(run, rest);
      LayoutIsSound(run + [rest[0]], rest[1..]);
    }
  }

  /**
   On a text without comments the fragments handed to the callback are its outside-quote texts: the text has one
   layout, from which it can be put together again, and the fragments are the layout's runs.
   */
  lemma FragmentsAreOutsideRuns(text: string)
    requires !CommentOutside(Normal, text)
    ensures var t := LayoutFrom("", text);
            Sound(t) && Render(t) == text && Scan(text) == Scanned(false, Runs(t))
    ensures forall t | Sound(t) && Render(t) == text :: Runs(t) == Scan(text).fragments
  {
    StopsAtComment(Normal, "", text);
    LayoutIsSound("", text);
    LayoutRenders("", text);
    assert "" + text == text;
    ScanReadsLayout(LayoutFrom("", text));
    forall t | Sound(t) && Render(t) == text
      ensures Runs(t) == Scan(text).fragments
    {
      ScanReadsLayout(t);
    }
  }

  // ----- quoted content does not matter

  lemma {:induction false} SpliceFrom(mode: Mode, run: string, pre: string, quote: char, u: string, v: string)
    requires IsQuote(quote) && ModeAt(mode, pre + [quote] + u, |pre|) == [Normal]
    requires ScanFrom(ModeOf(quote), "", u) == ScanFrom(ModeOf(quote), "", v)
    ensures ScanFrom(mode, run, pre + [quote] + u) == ScanFrom(mode, run, pre + [quote] + v)
    decreases |pre|
  {
    var a, b := pre + [quote] + u, pre + [quote] + v;
    if pre == "" {
      assert a[1..] == u && b[1..] == v;
    } else {
      assert a[0] == b[0] == pre[0];
      assert |pre| == 1 ==> a[1] == b[1] == quote;
      assert |pre| >= 2 ==> a[1] == b[1] == pre[1];
      assert |pre| == 2 ==> a[2] == b[2] == quote;
      assert |pre| >= 3 ==> a[2] == b[2] == pre[2];
      assert a[1..] == pre[1..] + [quote] + u && b[1..] == pre[1..] + [quote] + v;
      if mode == Normal {
        if IsQuote(pre[0]) {
          SpliceFrom(ModeOf(pre[0]), "", pre[1..], quote, u, v);
        } else if !Opens(a) {
          SpliceFrom(Normal, run + [pre[0]], pre[1..], quote, u, v);
        }
      } else if Skips(mode, a) {
        assert |pre| >= 2;
        assert a[2..] == pre[2..] + [quote] + u && b[2..] == pre[2..] + [quote] + v;
        SpliceFrom(mode, "", pre[2..], quote, u, v);
      } else {
        SpliceFrom(if pre[0] == QuoteOf(mode) then Normal else mode, "", pre[1..], quote, u, v);
      }
    }
  }

  /**
   Replacing the body of a quoted span by any other well-escaped body changes nothing the scan finds, whether or
   not there are comments about.
   */
  lemma QuotedContentIsInert(pre: string, quote: char, body: string, other: string, post: string)
    requires IsQuote(quote) && WellEscaped(quote, body) && WellEscaped(quote, other) && Follows(quote, post)
    requires ModeAt(Normal, pre + [quote] + (body + [quote] + post), |pre|) == [Normal]
    ensures Scan(pre + [quote] + (body + [quote] + post)) == Scan(pre + [quote] + (other + [quote] + post))
    ensures CommentOutside(Normal, pre + [quote] + (body + [quote] + post)) <==>
            CommentOutside(Normal, pre + [quote] + (other + [quote] + post))
  {
    SpanIsRead(quote, body, post);
    SpanIsRead(quote, other, post);
    SpliceFrom(Normal, "", pre, quote, body + [quote] + post, other + [quote] + post);
    StopsAtComment(Normal, "", pre + [quote] + (body + [quote] + post));
    StopsAtComment(Normal, "", pre + [quote] + (other + [quote] + post));
  }

  // ----- the raw search for INTO

  function UpperOf(upper: char -> char, s: string): (u: string)
    ensures |u| == |s| && forall i | 0 <= i < |s| :: u[i] == upper(s[i])
  {
    seq(|s|, i requires 0 <= i < |s| => upper(s[i]))
  }

  function Concat(fragments: seq<string>): string { if fragments == [] then "" else fragments[0] + Concat(fragments[1..]) }

  lemma {:induction false} ConcatSnoc(fragments: seq<string>, last: string)
    ensures Concat(fragments + [last]) == Concat(fragments) + last
    decreases |fragments|
  {
    if fragments == [] {
      assert [last] == [] + [last];
    } else {
      ConcatSnoc(fragments[1..], last);
      assert (fragments + [last])[1..] == fragments[1..] + [last];
    }
  }

  /** The outside text of a statement in upper case, put together fragment by fragment; `upper` maps one character. */
  method OutsideQuotesUpper(text: string, upper: char -> char) returns (s: string)
    ensures s == UpperOf(upper, Concat(Scan(text).fragments))
  {
    var found, fragments := ScanOutsideQuotes(text, fragment => false);
    s := "";
    var k := 0;
    while k < |fragments|
      invariant 0 <= k <= |fragments|
      invariant s == UpperOf(upper, Concat(fragments[..k]))
    {
      ConcatSnoc(fragments[..k], fragments[k]);
      assert fragments[..k + 1] == fragments[..k] + [fragments[k]];
      s := s + UpperOf(upper, fragments[k]);
      k := k + 1;
    }
    assert fragments[..k] == fragments;
  }

  predicate WritesOut(text: string) {
    Contains(text, " INTO OUTFILE") || Contains(text, " INTO DUMPFILE") || Contains(text, " INTO @")
  }

  lemma ContainsExactly(s: string, sub: string)
    ensures Contains(s, sub) <==> exists pre, post :: s == pre + sub + post
  {
    if i: nat :| i <= |s| && OccursAt(s, sub, i) {
      assert s == s[..i] + sub + s[i + |sub|..];
    }
    if pre, post :| s == pre + sub + post {
      assert s[|pre|..|pre| + |sub|] == sub;
      assert OccursAt(s, sub, |pre|);
    }
  }

  /** The patterns: the word INTO after a space, and after another OUTFILE, DUMPFILE or an at sign. */
  lemma WritesOutExactly(text: string)
    ensures WritesOut(text) <==>
            || (exists pre, post :: text == pre + " INTO OUTFILE" + post)
            || (exists pre, post :: text == pre + " INTO DUMPFILE" + post)
            || (exists pre, post :: text == pre + " INTO @" + post)
  {
    hide Contains;
    ContainsExactly(text, " INTO OUTFILE");
    ContainsExactly(text, " INTO DUMPFILE");
    ContainsExactly(text, " INTO @");
  }

  method DetectRawDeniedPattern(text: string, upper: char -> char) returns (denied: bool)
    ensures denied <==> WritesOut(UpperOf(upper, Concat(Scan(text).fragments)))
  {
    var normalized := OutsideQuotesUpper(text, upper);
    denied := WritesOut(normalized);
  }

  /** The verdict depends on the outside text alone: no quoted body can bring it about or hide it. */
  lemma QuotedContentIsNotDenied(pre: string, quote: char, body: string, other: string, post: string, upper: char -> char)
    requires IsQuote(quote) && WellEscaped(quote, body) && WellEscaped(quote, other) && Follows(quote, post)
    requires ModeAt(Normal, pre + [quote] + (body + [quote] + post), |pre|) == [Normal]
    ensures WritesOut(UpperOf(upper, Concat(Scan(pre + [quote] + (body + [quote] + post)).fragments))) <==>
            WritesOut(UpperOf(upper, Concat(Scan(pre + [quote] + (other + [quote] + post)).fragments)))
  {
    QuotedContentIsInert(pre, quote, body, other, post);
  }

  // ----- the rules of quoting and comments, character by character

  /** Text in which nothing is quoted and no comment can start. */
  predicate PlainText(run: string) {
    forall c | c in run :: c != '\'' && c != '"' && c != '`' && c != '#' && c != '/' && c != '-'
  }

  lemma {:induction false} PlainIsRead(before: string, run: string, rest: string)
    requires PlainText(run)
    ensures ScanFrom(Normal, before, run + rest) == ScanFrom(Normal, before + run, rest)
    decreases |run|
  {
    if run == "" {
      assert run + rest == rest && before + run == before;
    } else {
      assert run[0] in run;
      assert forall c | c in run[1..] :: c in run;
      assert (run + rest)[1..] == run[1..] + rest;
      assert before + [run[0]] + run[1..] == before + run;
      PlainIsRead(before + [run[0]], run[1..], rest);
    }
  }

  lemma PlainThenComment(run: string, rest: string)
    requires PlainText(run) && Opens(rest)
    ensures CommentOutside(Normal, run + rest)
  {
    PlainIsRead("", run, rest);
    StopsAtComment(Normal, "", run + rest);
  }

  /**
   A comment starts outside quotes with a hash sign, with a slash and a star, and with two dashes if a space, tab, line
   feed, carriage return, form feed or vertical tab follows.
   */
  lemma CommentsAreFound(run: string, c: char, post: string)
    requires PlainText(run)
    requires c == ' ' || c == '\t' || c == '\n' || c == '\r' || c == '\U{0C}' || c == '\U{0B}'
    ensures CommentOutside(Normal, run + "#" + post) && CommentOutside(Normal, run + "/*" + post)
    ensures CommentOutside(Normal, run + ("--" + [c]) + post)
  {
    assert run + "#" + post == run + ("#" + post) && run + "/*" + post == run + ("/*" + post);
    assert run + ("--" + [c]) + post == run + ("--" + [c] + post);
    PlainThenComment(run, "#" + post);
    PlainThenComment(run, "/*" + post);
    PlainThenComment(run, "--" + [c] + post);
  }

  /** Plain text has no comment, and neither has a slash or two dashes in it that nothing of the above follows. */
  lemma OthersAreNoComments(run: string, c: char)
    requires PlainText(run) && PlainText([c])
    ensures !CommentOutside(Normal, run)
    ensures c != '*' ==> !CommentOutside(Normal, run + ("/" + [c]))
    ensures c != ' ' && c != '\t' && c != '\n' && c != '\r' && c != '\U{0C}' && c != '\U{0B}' ==>
              !CommentOutside(Normal, run + ("--" + [c]))
  {
    assert run + "" == run;
    PlainIsRead("", run, "");
    StopsAtComment(Normal, "", run);
    PlainIsRead("", run, "/" + [c]);
    StopsAtComment(Normal, "", run + ("/" + [c]));
    if c != '*' {
      SlashIsText("" + run, c);
    }
    PlainIsRead("", run, "--" + [c]);
    StopsAtComment(Normal, "", run + ("--" + [c]));
    if !IsSpaceOrControl(c) {
      DashesAreText("" + run, c);
    }
  }

  lemma SlashIsText(run: string, c: char)
    requires PlainText([c]) && c != '*'
    ensures !ScanFrom(Normal, run, "/" + [c]).stopped
  {
    assert c in [c] && ("/" + [c])[1..] == [c];
    PlainIsRead(run + "/", [c], "");
    assert [c] + "" == [c];
  }

  lemma DashesAreText(run: string, c: char)
    requires PlainText([c]) && !IsSpaceOrControl(c)
    ensures !ScanFrom(Normal, run, "--" + [c]).stopped
  {
    assert c in [c] && ("--" + [c])[1..] == "-" + [c] && ("-" + [c])[1..] == [c];
    ScanStep(Normal, run, "--" + [c]);
    ScanStep(Normal, run + "-", "-" + [c]);
    PlainIsRead(run + "-" + "-", [c], "");
    assert [c] + "" == [c];
  }

  /** What may stand between two quotes: anything but the quote and, except between backticks, the backslash. */
  predicate Unescaped(quote: char, s: string) { forall c | c in s :: c != quote && (c != '\\' || quote == '`') }

  lemma {:induction false} UnescapedIsWellEscaped(quote: char, s: string, more: string)
    requires IsQuote(quote) && Unescaped(quote, s) && WellEscaped(quote, more)
    ensures WellEscaped(quote, s + more)
    decreases |s|
  {
    if s == "" {
      assert s + more == more;
    } else {
      assert s[0] in s && forall c | c in s[1..] :: c in s;
      assert (s + more)[1..] == s[1..] + more;
      UnescapedIsWellEscaped(quote, s[1..], more);
    }
  }

  /**
   Between two single quotes, double quotes or backticks anything is read as quoted, the quote itself written twice or,
   but not between backticks, behind a backslash, like any other character: the text goes on behind the closing quote.
   */
  lemma QuotedIsPassedOver(run: string, quote: char, a: string, escape: string, b: string, c: char, post: string)
    requires PlainText(run) && (quote == '\'' || quote == '"' || quote == '`') && (post == "" || post[0] != quote)
    requires Unescaped(quote, a) && Unescaped(quote, b)
    requires escape == "" || escape == [quote, quote] || (quote != '`' && escape == ['\\', c])
    ensures var text := run + ([quote] + (a + (escape + b)) + [quote] + post);
            && Scan(text).fragments == [run] + Scan(post).fragments
            && (CommentOutside(Normal, text) <==> CommentOutside(Normal, post))
  {
    assert b + "" == b && escape + b == escape + (b + "");
    UnescapedIsWellEscaped(quote, b, "");
    if escape != "" {
      assert (escape + b)[2..] == b;
    } else {
      assert escape + b == b;
    }
    UnescapedIsWellEscaped(quote, a, escape + b);
    PlainIsClean(run);
    var text := run + ([quote] + (a + (escape + b)) + [quote] + post);
    SpanTail(run, quote, a + (escape + b), post);
    StopsAtComment(Normal, "", text);
    StopsAtComment(Normal, "", post);
  }

  lemma PlainIsClean(run: string)
    requires PlainText(run)
    ensures Clean(run)
  {
    forall i | 0 <= i < |run|
      ensures !IsQuote(run[i]) && !Opens(run[i..])
    {
      assert run[i] in run && run[i..][0] == run[i];
    }
  }

  /** A quote that is never closed hides the rest of the text. */
  lemma UnclosedHidesTheRest(run: string, quote: char, rest: string)
    requires PlainText(run) && (quote == '\'' || quote == '"' || quote == '`') && Unescaped(quote, rest)
    ensures Scan(run + ([quote] + rest)) == Scanned(false, [run])
  {
    PlainIsRead("", run, [quote] + rest);
    assert ([quote] + rest)[1..] == rest && "" + run == run;
    NeverClosed(quote, rest);
    UnfinishedIsRead(quote, rest);
  }

  lemma {:induction false} NeverClosed(quote: char, rest: string)
    requires IsQuote(quote) && Unescaped(quote, rest)
    ensures NeverCloses(quote, rest)
    decreases |rest|
  {
    if rest != "" {
      assert rest[0] in rest && forall c | c in rest[1..] :: c in rest;
      NeverClosed(quote, rest[1..]);
    }
  }
}
