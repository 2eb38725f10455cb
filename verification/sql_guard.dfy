/** The checks a statement passes before it may run: the raw text checks, the walk over its tree, the row limit. */
module SqlGuard {
  import opened Common
  import opened SqlScanner
  import opened Text

  /** What is added to a statement whose rows nothing else bounds. */
  const LIMIT_CLAUSE := " LIMIT 1000"

  datatype Lock =
    | LockNone | ForShare | ForShareNoWait | ForShareSkipLocked
    | ForUpdate | ForUpdateNoWait | ForUpdateWait | ForUpdateSkipLocked

  /** As much of a select field's expression as the row limit depends on. */
  datatype Expr = Aggregate | Parens(inner: Expr) | OtherExpr

  /** What the checks look at in a node of the parser's tree; `construct` names the kind of any other statement. */
  datatype Shape =
    | SelectStmt(into: bool, lock: Option<Lock>, groupBy: Option<nat>, fields: Option<seq<Option<Expr>>>, limited: bool)
    | SetOprStmt(limited: bool)
    | ShowStmt
    | OtherNode(construct: string)

  /** A node with its children in the order the parser's tree is walked. */
  datatype Node = Node(shape: Shape, children: seq<Node>)

  datatype Verdict = Verdict(ok: bool, rewrittenSQL: string, reason: string, blockedConstructs: seq<string>, limitInjected: bool)

  function FirstOccurrences(items: seq<string>): (out: seq<string>)
    ensures forall x :: x in out <==> x in items && x != ""
    ensures forall i, j | 0 <= i < j < |out| :: out[i] != out[j]
  {
    if items == [] then []
    else
      var before := FirstOccurrences(items[..|items| - 1]);
      var last := items[|items| - 1];
      assert forall x :: x in items <==> x in items[..|items| - 1] || x == last;
      if last == "" || last in before then before else before + [last]
  }

  /** The order is that of the first occurrences: more items only add behind what is there. */
  lemma {:induction false} FirstOccurrencesGrow(items: seq<string>, more: seq<string>)
    ensures FirstOccurrences(items) <= FirstOccurrences(items + more)
    decreases |more|
  {
    hide FirstOccurrences;
    if more == [] {
      assert items + more == items;
    } else {
      var n := |more| - 1;
      assert (items + more)[..|items| + n] == items + more[..n];
      FirstOccurrencesGrow(items, more[..n]);
      OneMoreOccurs(items + more);
    }
  }

  lemma OneMoreOccurs(items: seq<string>)
    requires items != []
    ensures FirstOccurrences(items[..|items| - 1]) <= FirstOccurrences(items)
  {
  }

  method UniqueConstructs(items: seq<string>) returns (out: seq<string>)
    ensures out == FirstOccurrences(items)
  {
    out := [];
    var seen := {};
    var i := 0;
    while i < |items|
      invariant 0 <= i <= |items|
      invariant out == FirstOccurrences(items[..i])
      invariant forall x :: x in seen <==> x in out
    {
      assert items[..i + 1][..i] == items[..i];
      if items[i] != "" && items[i] !in seen {
        seen := seen + {items[i]};
        out := out + [items[i]];
      }
      i := i + 1;
    }
    assert items[..i] == items;
  }

  function Deny(reason: string, construct: string): Verdict {
    Verdict(false, "", reason, FirstOccurrences([construct]), false)
  }

  // ----- the denials

  function Unparsed(): Verdict { Deny("SQL could not be parsed as a single MySQL statement", "parse_error") }

  function Commented(): Verdict { Deny("SQL comments are not allowed", "comment") }

  function MultiStatement(): Verdict { Deny("multi-statement SQL is not allowed", "multi_statement") }

  function WrongKind(construct: string): Verdict {
    Deny("only SELECT, WITH-that-resolves-to-SELECT, and SHOW statements are allowed", construct)
  }

  function WritesIntoDenied(): Verdict { Deny("SELECT ... INTO is not allowed", "select_into") }

  function ForUpdateDenied(): Verdict { Deny("SELECT ... FOR UPDATE is not allowed", "for_update") }

  /** A denial passes nothing, says why, and names what it denies, if that has a name. */
  ghost predicate DeniedAs(v: Verdict, construct: string) {
    && !v.ok && v.rewrittenSQL == "" && !v.limitInjected && v.reason != ""
    && v.blockedConstructs == if construct == "" then [] else [construct]
  }

  lemma DenyNames(reason: string, construct: string)
    requires reason != ""
    ensures DeniedAs(Deny(reason, construct), construct)
  {
    assert [construct][..0] == [] && FirstOccurrences([]) == [];
  }

  lemma DenialsAreNamed(construct: string)
    ensures DeniedAs(Unparsed(), "parse_error") && DeniedAs(Commented(), "comment")
    ensures DeniedAs(MultiStatement(), "multi_statement") && DeniedAs(WrongKind(construct), construct)
  {
    hide DeniedAs;
    DenyNames("SQL could not be parsed as a single MySQL statement", "parse_error");
    DenyNames("SQL comments are not allowed", "comment");
    DenyNames("multi-statement SQL is not allowed", "multi_statement");
    DenyNames("only SELECT, WITH-that-resolves-to-SELECT, and SHOW statements are allowed", construct);
  }

  lemma SelectDenialsAreNamed()
    ensures DeniedAs(WritesIntoDenied(), "select_into") && DeniedAs(ForUpdateDenied(), "for_update")
  {
    hide DeniedAs;
    DenyNames("SELECT ... INTO is not allowed", "select_into");
    DenyNames("SELECT ... FOR UPDATE is not allowed", "for_update");
  }

  // ----- the walk over the tree

  predicate ReadLock(lock: Lock) { lock.LockNone? || lock.ForShare? || lock.ForShareNoWait? || lock.ForShareSkipLocked? }

  predicate WritesInto(n: Node) { n.shape.SelectStmt? && n.shape.into }

  predicate LocksRows(n: Node) { n.shape.SelectStmt? && n.shape.lock.Some? && !ReadLock(n.shape.lock.value) }

  predicate Offends(n: Node) { WritesInto(n) || LocksRows(n) }

  function Denial(n: Node): Verdict
    requires Offends(n)
  {
    if WritesInto(n) then WritesIntoDenied()
    else ForUpdateDenied()
  }

  /** All nodes of a tree, each before those below it. */
  function Preorder(n: Node): seq<Node> { [n] + PreorderAll(n.children) }

  function PreorderAll(nodes: seq<Node>): seq<Node> {
    if nodes == [] then [] else Preorder(nodes[0]) + PreorderAll(nodes[1..])
  }

  /** The denial for the first offending node of a list. */
  function FirstDenial(nodes: seq<Node>): Option<Verdict> {
    if nodes == [] then None
    else if Offends(nodes[0]) then Some(Denial(nodes[0]))
    else FirstDenial(nodes[1..])
  }

  lemma {:induction false} FirstDenialOfTwo(a: seq<Node>, b: seq<Node>)
    ensures FirstDenial(a + b) == if FirstDenial(a).Some? then FirstDenial(a) else FirstDenial(b)
  {
    if a == [] {
      assert a + b == b;
    } else {
      assert (a + b)[1..] == a[1..] + b;
      FirstDenialOfTwo(a[1..], b);
    }
  }

  lemma {:induction false} PreorderSnoc(nodes: seq<Node>, last: Node)
    ensures PreorderAll(nodes + [last]) == PreorderAll(nodes) + Preorder(last)
    decreases |nodes|
  {
    if nodes == [] {
      assert [last][1..] == [];
      assert nodes + [last] == [last];
      assert PreorderAll([last]) == Preorder(last) + PreorderAll([]);
    } else {
      hide Preorder;
      PreorderSnoc(nodes[1..], last);
      assert (nodes + [last])[1..] == nodes[1..] + [last];
      Regroup(Preorder(nodes[0]), PreorderAll(nodes[1..]), Preorder(last));
    }
  }

  lemma Regroup(a: seq<Node>, b: seq<Node>, c: seq<Node>)
    ensures a + b + c == a + (b + c)
  {
  }

  /** `m` occurs in the tree `n`, at any depth. */
  predicate Within(m: Node, n: Node) { m == n || exists i | 0 <= i < |n.children| :: Within(m, n.children[i]) }

  lemma {:induction false} PreorderIsWithin(m: Node, n: Node)
    ensures m in Preorder(n) <==> Within(m, n)
  {
    PreorderAllIsWithin(m, n.children);
  }

  lemma {:induction false} PreorderAllIsWithin(m: Node, nodes: seq<Node>)
    ensures m in PreorderAll(nodes) <==> exists i | 0 <= i < |nodes| :: Within(m, nodes[i])
  {
    if nodes != [] {
      PreorderIsWithin(m, nodes[0]);
      PreorderAllIsWithin(m, nodes[1..]);
      if exists i | 0 <= i < |nodes| :: Within(m, nodes[i]) {
        var i :| 0 <= i < |nodes| && Within(m, nodes[i]);
        if i > 0 { assert nodes[1..][i - 1] == nodes[i]; }
      }
      if m in PreorderAll(nodes[1..]) {
        var i :| 0 <= i < |nodes[1..]| && Within(m, nodes[1..][i]);
        assert nodes[i + 1] == nodes[1..][i];
      }
    }
  }

  lemma {:induction false} NoDenialNoOffender(nodes: seq<Node>)
    ensures FirstDenial(nodes) == None <==> forall m | m in nodes :: !Offends(m)
  {
    if nodes != [] {
      NoDenialNoOffender(nodes[1..]);
      assert forall m :: m in nodes <==> m == nodes[0] || m in nodes[1..];
    }
  }

  /** The walk denies a tree exactly when some SELECT anywhere in it writes INTO a file or variable, or locks rows for update. */
  lemma DeniedIffSomeSelectOffends(n: Node)
    ensures FirstDenial(Preorder(n)) == None <==> forall m | Within(m, n) :: !Offends(m)
  {
    NoDenialNoOffender(Preorder(n));
    forall m
      ensures m in Preorder(n) <==> Within(m, n)
    {
      PreorderIsWithin(m, n);
    }
  }

  class GuardVisitor {
    var denied: Option<Verdict>

    constructor ()
      ensures denied == None
    {
      denied := None;
    }

    /** Whether the walk passes over what is below `n`. */
    method Enter(n: Node) returns (skip: bool)
      modifies this
      ensures denied == if old(denied).Some? then old(denied) else FirstDenial([n])
      ensures skip == denied.Some?
    {
      if denied.Some? {
        return true;
      }
      match n.shape {
      case SelectStmt(into, lock, _, _, _) =>
        if into {
          denied := Some(WritesIntoDenied());
          return true;
        }
        if lock.Some? {
          match lock.value {
          case LockNone => {}
          case ForShare => {}
          case ForShareNoWait => {}
          case ForShareSkipLocked => {}
          case _ =>
            denied := Some(ForUpdateDenied());
            return true;
          }
        }
      case _ =>
      }
      return false;
    }

    method Leave(n: Node) returns (ok: bool)
      ensures ok == denied.None?
    {
      ok := denied.None?;
    }
  }

  /** The tree's own walk: it enters a node, then its children from first to last until one says stop, then leaves. */
  method Accept(n: Node, v: GuardVisitor) returns (ok: bool)
    modifies v
    ensures v.denied == if old(v.denied).Some? then old(v.denied) else FirstDenial(Preorder(n))
    ensures ok == v.denied.None?
    decreases n
  {
    FirstDenialOfTwo([n], PreorderAll(n.children));
    var skip := v.Enter(n);
    if skip {
      ok := v.Leave(n);
      return;
    }
    var i := 0;
    while i < |n.children|
      invariant 0 <= i <= |n.children|
      invariant v.denied == None && FirstDenial(PreorderAll(n.children[..i])) == None
    {
      assert n.children[..i + 1] == n.children[..i] + [n.children[i]];
      PreorderSnoc(n.children[..i], n.children[i]);
      FirstDenialOfTwo(PreorderAll(n.children[..i]), Preorder(n.children[i]));
      ok := Accept(n.children[i], v);
      if !ok {
        DenialOfPrefix(n.children, i + 1);
        return;
      }
      i := i + 1;
    }
    assert n.children[..i] == n.children;
    ok := v.Leave(n);
  }

  /** What denies some of the children denies all of them. */
  lemma {:induction false} DenialOfPrefix(nodes: seq<Node>, k: nat)
    requires k <= |nodes| && FirstDenial(PreorderAll(nodes[..k])).Some?
    ensures FirstDenial(PreorderAll(nodes)) == FirstDenial(PreorderAll(nodes[..k]))
    decreases |nodes| - k
  {
    if k == |nodes| {
      assert nodes[..k] == nodes;
    } else {
      assert nodes[..k + 1] == nodes[..k] + [nodes[k]];
      PreorderSnoc(nodes[..k], nodes[k]);
      FirstDenialOfTwo(PreorderAll(nodes[..k]), Preorder(nodes[k]));
      DenialOfPrefix(nodes, k + 1);
    }
  }

  // ----- the row limit

  function ContainsTopLevelAggregate(e: Expr): bool {
    match e
    case Aggregate => true
    case Parens(inner) => ContainsTopLevelAggregate(inner)
    case OtherExpr => false
  }

  function Unwrapped(e: Expr): Expr { if e.Parens? then Unwrapped(e.inner) else e }

  lemma AggregateUnderParens(e: Expr)
    ensures ContainsTopLevelAggregate(e) <==> Unwrapped(e) == Aggregate
  {
  }

  /** Some field of the select list is an aggregate, in any number of parentheses. */
  predicate SelectsAggregate(fields: seq<Option<Expr>>) {
    exists i | 0 <= i < |fields| :: fields[i].Some? && Unwrapped(fields[i].value) == Aggregate
  }

  predicate Aggregated(s: Shape)
    requires s.SelectStmt?
  {
    || (s.groupBy.Some? && s.groupBy.value > 0)
    || (s.fields.Some? && SelectsAggregate(s.fields.value))
  }

  method IsAggregatedSelect(s: Shape) returns (aggregated: bool)
    requires s.SelectStmt?
    ensures aggregated == Aggregated(s)
  {
    if s.groupBy.Some? && s.groupBy.value > 0 {
      return true;
    }
    if s.fields == None || s.fields.value == [] {
      return false;
    }
    var fields, i := s.fields.value, 0;
    while i < |fields|
      invariant 0 <= i <= |fields|
      invariant forall j | 0 <= j < i && fields[j].Some? :: Unwrapped(fields[j].value) != Aggregate
    {
      if fields[i].Some? {
        AggregateUnderParens(fields[i].value);
        if ContainsTopLevelAggregate(fields[i].value) {
          return true;
        }
      }
      i := i + 1;
    }
    return false;
  }

  /** The rows a statement can return are bounded neither by a limit of its own nor by aggregation. */
  predicate Unbounded(s: Shape) {
    match s
    case SelectStmt(_, _, _, _, limited) => !limited && !Aggregated(s)
    case SetOprStmt(limited) => !limited
    case _ => false
  }

  predicate Allowed(s: Shape) { s.SelectStmt? || s.SetOprStmt? || s.ShowStmt? }

  method NeedsLimitInjection(s: Shape) returns (needed: bool)
    requires Allowed(s)
    ensures needed == Unbounded(s)
  {
    match s {
    case SelectStmt(_, _, _, _, limited) =>
      if limited {
        return false;
      }
      var aggregated := IsAggregatedSelect(s);
      return !aggregated;
    case SetOprStmt(limited) => return !limited;
    case ShowStmt => return false;
    }
  }

  // ----- the verdict

  /** The one statement of a text that the parser accepts as such. */
  function OneStatement(statements: Option<seq<Node>>): Option<Node> {
    if statements.Some? && |statements.value| == 1 then Some(statements.value[0]) else None
  }

  /** The text is clean, is one statement, of an allowed kind, and no SELECT in it offends. */
  ghost predicate Acceptable(text: string, upper: char -> char, parse: string -> Option<seq<Node>>) {
    && text != ""
    && !CommentOutside(Normal, text)
    && !WritesOut(UpperOf(upper, Concat(Scan(text).fragments)))
    && var n := OneStatement(parse(text));
       n.Some? && Allowed(n.value.shape) && forall m | Within(m, n.value) :: !Offends(m)
  }

  /** Why a text is refused, by the first check it fails. */
  ghost function Refusal(text: string, upper: char -> char, parse: string -> Option<seq<Node>>): Verdict {
    if text != "" && CommentOutside(Normal, text) then Commented()
    else if text != "" && WritesOut(UpperOf(upper, Concat(Scan(text).fragments))) then
      WritesIntoDenied()
    else if text == "" || parse(text) == None || parse(text).value == [] then
      Unparsed()
    else if |parse(text).value| > 1 then MultiStatement()
    else if !Allowed(parse(text).value[0].shape) then
      WrongKind(parse(text).value[0].shape.construct)
    else
      var d := FirstDenial(Preorder(parse(text).value[0]));
      if d.Some? then d.value else Verdict(true, "", "", [], false)
  }

  /**
   What is promised of a verdict on a text: it passes exactly an acceptable one that can be written back, with a row
   limit added exactly where nothing else bounds the rows, and refuses any other by the first check it fails.
   */
  ghost predicate Settles(r: Option<Verdict>, text: string, upper: char -> char, parse: string -> Option<seq<Node>>,
                          restore: Node -> Option<string>)
  {
    && (r.Some? && r.value.ok ==> Acceptable(text, upper, parse))
    && (Acceptable(text, upper, parse) ==>
          var n := OneStatement(parse(text)).value;
          match restore(n)
          case None => r == None
          case Some(restored) =>
            && r.Some? && r.value.ok && r.value.blockedConstructs == []
            && r.value.limitInjected == Unbounded(n.shape)
            && r.value.rewrittenSQL == Limited(n.shape, restored))
    && (!Acceptable(text, upper, parse) ==> r == Some(Refusal(text, upper, parse)))
    && (r.Some? && !r.value.ok ==> r.value.rewrittenSQL == "" && !r.value.limitInjected && r.value.reason != "")
  }

  /** A statement written back, with the row limit where nothing else bounds its rows. */
  function Limited(s: Shape, restored: string): string
    requires Allowed(s)
  {
    if Unbounded(s) then restored + LIMIT_CLAUSE else restored
  }

  /**
   The verdict on a statement.  The parser and the writing back of a tree are outside; a tree that cannot be written
   back is an error of its own, given as None.
   */
  method Validate(sql: string, upper: char -> char, parse: string -> Option<seq<Node>>, restore: Node -> Option<string>)
    returns (r: Option<Verdict>)
    ensures Settles(r, TrimSpace(sql), upper, parse, restore)
  {
    var trimmed := TrimSpace(sql);
    if trimmed == "" {
      return Some(Unparsed());
    }
    var commented := HasCommentToken(trimmed);
    if commented {
      return Some(Commented());
    }
    var writes := DetectRawDeniedPattern(trimmed, upper);
    if writes {
      return Some(WritesIntoDenied());
    }
    var statements := parse(trimmed);
    if statements == None || statements.value == [] {
      return Some(Unparsed());
    }
    if |statements.value| > 1 {
      return Some(MultiStatement());
    }
    var stmt := statements.value[0];
    if !Allowed(stmt.shape) {
      return Some(WrongKind(stmt.shape.construct));
    }
    var v := new GuardVisitor();
    var ok := Accept(stmt, v);
    DeniedIffSomeSelectOffends(stmt);
    if v.denied.Some? {
      DenialIsNotOk(Preorder(stmt));
      return v.denied;
    }
    var needsLimit := NeedsLimitInjection(stmt.shape);
    var restored := restore(stmt);
    if restored == None {
      return None;
    }
    var rewritten := restored.value;
    if needsLimit {
      rewritten := rewritten + LIMIT_CLAUSE;
    }
    return Some(Verdict(true, rewritten, "", [], needsLimit));
  }

  // ----- what a verdict says, spelled out

  /** An aggregate in `k` pairs of parentheses. */
  function InParens(k: nat): Expr { if k == 0 then Aggregate else Parens(InParens(k - 1)) }

  function Depth(e: Expr): nat { if e.Parens? then 1 + Depth(e.inner) else 0 }

  lemma {:induction false} AggregateIsInParens(e: Expr)
    requires Unwrapped(e) == Aggregate
    ensures e == InParens(Depth(e))
  {
    if e.Parens? {
      AggregateIsInParens(e.inner);
    }
  }

  lemma {:induction false} InParensIsAggregate(k: nat)
    ensures Unwrapped(InParens(k)) == Aggregate
  {
    if k > 0 {
      InParensIsAggregate(k - 1);
    }
  }

  lemma AggregatesAreInParens(fields: seq<Option<Expr>>)
    ensures SelectsAggregate(fields) <==> exists i, k: nat | 0 <= i < |fields| :: fields[i] == Some(InParens(k))
  {
    if i :| 0 <= i < |fields| && fields[i].Some? && Unwrapped(fields[i].value) == Aggregate {
      AggregateIsInParens(fields[i].value);
      assert fields[i] == Some(InParens(Depth(fields[i].value)));
    }
    forall i, k: nat | 0 <= i < |fields| && fields[i] == Some(InParens(k))
      ensures SelectsAggregate(fields)
    {
      InParensIsAggregate(k);
    }
  }

  /**
   A text that passes is one statement: a SELECT, a set operation or a SHOW.  No SELECT in it, at any depth, writes INTO,
   and each locks nothing or locks for sharing only.
   */
  lemma PassedIsReadOnly(r: Option<Verdict>, text: string, upper: char -> char, parse: string -> Option<seq<Node>>,
                         restore: Node -> Option<string>, m: Node)
    requires Settles(r, text, upper, parse, restore) && r.Some? && r.value.ok
    ensures parse(text).Some? && |parse(text).value| == 1
    ensures var n := parse(text).value[0];
            && (n.shape.SelectStmt? || n.shape.SetOprStmt? || n.shape.ShowStmt?)
            && (Within(m, n) && m.shape.SelectStmt? ==>
                  && !m.shape.into
                  && (|| m.shape.lock == None || m.shape.lock == Some(LockNone) || m.shape.lock == Some(ForShare)
                      || m.shape.lock == Some(ForShareNoWait) || m.shape.lock == Some(ForShareSkipLocked)))
  {
    hide CommentOutside, WritesOut, Scan, UpperOf;
    var n := parse(text).value[0];
    if Within(m, n) {
      assert !Offends(m);
    }
  }

  /** A SELECT at any depth that writes INTO, or takes one of the four locks for update, has its statement refused. */
  lemma UpdatingIsRefused(r: Option<Verdict>, text: string, upper: char -> char, parse: string -> Option<seq<Node>>,
                          restore: Node -> Option<string>, m: Node)
    requires Settles(r, text, upper, parse, restore)
    requires parse(text).Some? && exists i | 0 <= i < |parse(text).value| :: Within(m, parse(text).value[i])
    requires m.shape.SelectStmt?
    requires || m.shape.into || m.shape.lock == Some(ForUpdate) || m.shape.lock == Some(ForUpdateNoWait)
             || m.shape.lock == Some(ForUpdateWait) || m.shape.lock == Some(ForUpdateSkipLocked)
    ensures r.Some? && !r.value.ok && r.value.rewrittenSQL == ""
  {
    hide CommentOutside, WritesOut, Scan, UpperOf, FirstDenial, Refusal;
    assert !Acceptable(text, upper, parse);
    RefusalIsNotOk(text, upper, parse);
  }

  /**
   A text that passes is written back from its one statement, with " LIMIT 1000" behind it exactly for a SELECT without a
   limit, without GROUP BY items and without an aggregate field in any number of parentheses, and for a set operation
   without a limit.
   */
  lemma PassedIsLimited(r: Option<Verdict>, text: string, upper: char -> char, parse: string -> Option<seq<Node>>,
                        restore: Node -> Option<string>)
    requires Settles(r, text, upper, parse, restore) && r.Some? && r.value.ok
    ensures parse(text).Some? && |parse(text).value| == 1
    ensures var n := parse(text).value[0];
            && restore(n).Some?
            && r.value.rewrittenSQL == restore(n).value + (if r.value.limitInjected then " LIMIT 1000" else "")
            && (n.shape.SelectStmt? ==>
                  (r.value.limitInjected <==>
                   && !n.shape.limited
                   && (n.shape.groupBy == None || n.shape.groupBy == Some(0))
                   && !(n.shape.fields.Some? && exists i, k: nat | 0 <= i < |n.shape.fields.value| ::
                        n.shape.fields.value[i] == Some(InParens(k)))))
            && (n.shape.SetOprStmt? ==> (r.value.limitInjected <==> !n.shape.limited))
            && (n.shape.ShowStmt? ==> !r.value.limitInjected)
  {
    hide CommentOutside, WritesOut, Scan, UpperOf, Within;
    var n := parse(text).value[0];
    assert restore(n).value + "" == restore(n).value;
    if n.shape.SelectStmt? && n.shape.fields.Some? {
      AggregatesAreInParens(n.shape.fields.value);
    }
  }

  /** What a refused text is told: the first of the checks it fails, by name. */
  lemma RefusedByName(r: Option<Verdict>, text: string, upper: char -> char, parse: string -> Option<seq<Node>>,
                      restore: Node -> Option<string>)
    requires Settles(r, text, upper, parse, restore) && r.Some? && !r.value.ok
    ensures if text == "" then DeniedAs(r.value, "parse_error")
            else if CommentOutside(Normal, text) then DeniedAs(r.value, "comment")
            else if WritesOut(UpperOf(upper, Concat(Scan(text).fragments))) then DeniedAs(r.value, "select_into")
            else if parse(text) == None || parse(text).value == [] then DeniedAs(r.value, "parse_error")
            else if |parse(text).value| > 1 then DeniedAs(r.value, "multi_statement")
            else if parse(text).value[0].shape.OtherNode? then DeniedAs(r.value, parse(text).value[0].shape.construct)
            else
              exists m :: Within(m, parse(text).value[0]) && m.shape.SelectStmt?
                          && DeniedAs(r.value, if m.shape.into then "select_into" else "for_update")
  {
    hide DeniedAs, Unparsed, Commented, MultiStatement, WrongKind, WritesIntoDenied, ForUpdateDenied,
         CommentOutside, WritesOut, Scan, UpperOf, Within, FirstDenial, Preorder;
    assert !Acceptable(text, upper, parse);
    DenialsAreNamed("");
    SelectDenialsAreNamed();
    if parse(text).Some? && |parse(text).value| == 1 {
      var n := parse(text).value[0];
      DeniedIffSomeSelectOffends(n);
      if n.shape.OtherNode? {
        DenialsAreNamed(n.shape.construct);
      }
      if FirstDenial(Preorder(n)).Some? {
        var m := DenialIsOfOne(Preorder(n));
        PreorderIsWithin(m, n);
      }
    }
  }

  lemma {:induction false} DenialIsOfOne(nodes: seq<Node>) returns (m: Node)
    requires FirstDenial(nodes).Some?
    ensures m in nodes && Offends(m) && FirstDenial(nodes) == Some(Denial(m))
  {
    if Offends(nodes[0]) {
      m := nodes[0];
    } else {
      m := DenialIsOfOne(nodes[1..]);
    }
  }

  lemma RefusalIsNotOk(text: string, upper: char -> char, parse: string -> Option<seq<Node>>)
    requires !Acceptable(text, upper, parse)
    ensures var v := Refusal(text, upper, parse); !v.ok && v.rewrittenSQL == "" && !v.limitInjected && v.reason != ""
  {
    hide Unparsed, Commented, MultiStatement, WrongKind, WritesIntoDenied, ForUpdateDenied,
         CommentOutside, WritesOut, UpperOf, Scan, FirstDenial, Preorder, Within;
    DenialsAreNamed("");
    SelectDenialsAreNamed();
    var n := OneStatement(parse(text));
    if n.Some? {
      if n.value.shape.OtherNode? {
        DenialsAreNamed(n.value.shape.construct);
      }
      DeniedIffSomeSelectOffends(n.value);
      if FirstDenial(Preorder(n.value)).Some? {
        DenialIsNotOk(Preorder(n.value));
      }
    }
  }

  /** Every text has a verdict that keeps the promise. */
  lemma SomeVerdictSettles(text: string, upper: char -> char, parse: string -> Option<seq<Node>>, restore: Node -> Option<string>)
    ensures Settles(Settled(text, upper, parse, restore), text, upper, parse, restore)
  {
    hide Acceptable, Refusal;
    if !Acceptable(text, upper, parse) {
      RefusalIsNotOk(text, upper, parse);
    } else {
      AcceptableIsOne(text, upper, parse);
    }
  }

  lemma AcceptableIsOne(text: string, upper: char -> char, parse: string -> Option<seq<Node>>)
    requires Acceptable(text, upper, parse)
    ensures OneStatement(parse(text)).Some? && Allowed(OneStatement(parse(text)).value.shape)
  {
  }

  ghost function Settled(text: string, upper: char -> char, parse: string -> Option<seq<Node>>, restore: Node -> Option<string>):
    Option<Verdict>
  {
    if !Acceptable(text, upper, parse) then Some(Refusal(text, upper, parse))
    else
      var n := OneStatement(parse(text)).value;
      match restore(n)
      case None => None
      case Some(restored) => Some(Verdict(true, Limited(n.shape, restored), "", [], Unbounded(n.shape)))
  }

  lemma {:induction false} DenialIsNotOk(nodes: seq<Node>)
    requires FirstDenial(nodes).Some?
    ensures var d := FirstDenial(nodes).value; !d.ok && d.rewrittenSQL == "" && !d.limitInjected && d.reason != ""
  {
    hide WritesIntoDenied, ForUpdateDenied;
    SelectDenialsAreNamed();
    if !Offends(nodes[0]) {
      DenialIsNotOk(nodes[1..]);
    }
  }
}
