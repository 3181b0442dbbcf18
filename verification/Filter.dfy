/** webhookWhere (internal/store/webhooks.go): the dashboard's filters compiled to WHERE
    clauses with positional arguments. Texts are ASCII. */
module Filter {
  import opened Wrappers
  import opened Timestamps
  import opened Lexical
  import opened Message

  // ---- text ----

  function LowerChar(c: char): char {
    if 'A' <= c <= 'Z' then c - 'A' + 'a' else c
  }

  function Lower(s: string): (r: string)
    ensures |r| == |s| && forall i | 0 <= i < |s| :: r[i] == LowerChar(s[i])
  {
    if s == [] then [] else [LowerChar(s[0])] + Lower(s[1..])
  }

  predicate Space(c: char) {
    c in {' ', '\t', '\n', '\r', 11 as char, 12 as char}
  }

  function TrimLeft(s: string): string {
    if s != [] && Space(s[0]) then TrimLeft(s[1..]) else s
  }

  function TrimRight(s: string): string {
    if s != [] && Space(s[|s| - 1]) then TrimRight(s[..|s| - 1]) else s
  }

  function TrimSpace(s: string): string {
    TrimRight(TrimLeft(s))
  }

  /** SQL LIKE: '%' matches any run, '_' any one character, letters in either case. */
  predicate Like(pattern: string, text: string)
    decreases |pattern| + |text|
  {
    if pattern == [] then text == []
    else if pattern[0] == '%' then Like(pattern[1..], text) || (text != [] && Like(pattern, text[1..]))
    else
      && text != [] && (pattern[0] == '_' || LowerChar(pattern[0]) == LowerChar(text[0]))
      && Like(pattern[1..], text[1..])
  }

  // ---- queries ----

  datatype StatusFilter = AnyStatus | PendingOnly | DeliveredOnly | Class2xx | Class3xx | Class4xx | Class5xx

  /** A zero time means no bound. */
  datatype Query = Query(search: string, pathContains: string, status: StatusFilter, from: AnyTime, to: AnyTime)

  const ZERO_TIME: UtcTime := Civil(1, 1, 1, 0, 0, 0, 0)

  datatype Column = Id | Token | Method | Path | Body | ResponseBody

  function ColumnText(w: Webhook, column: Column): string {
    match column
    case Id => w.id
    case Token => w.token
    case Method => w.httpMethod
    case Path => w.path
    case Body => w.body
    case ResponseBody => w.responseBody
  }

  /** A clause, and the placeholders it contains from left to right. */
  datatype Clause =
    | LowerLike(column: Column)
    | Or(left: Clause, right: Clause)
    | And(left: Clause, right: Clause)
    | StatusIs(value: int)
    | StatusAbove(value: int)
    | StatusFrom(value: int)
    | StatusBelow(value: int)
    | ReceivedFrom
    | ReceivedBefore

  function Placeholders(c: Clause): nat {
    match c
    case LowerLike(_) => 1
    case Or(l, r) => Placeholders(l) + Placeholders(r)
    case And(l, r) => Placeholders(l) + Placeholders(r)
    case ReceivedFrom => 1
    case ReceivedBefore => 1
    case _ => 0
  }

  /** What the database computes: each placeholder takes the next argument. */
  predicate Eval(c: Clause, args: seq<string>, w: Webhook)
    requires |args| == Placeholders(c)
  {
    match c
    case LowerLike(column) => Like(args[0], Lower(ColumnText(w, column)))
    case Or(l, r) => Eval(l, args[..Placeholders(l)], w) || Eval(r, args[Placeholders(l)..], w)
    case And(l, r) => Eval(l, args[..Placeholders(l)], w) && Eval(r, args[Placeholders(l)..], w)
    case StatusIs(n) => w.status == n
    case StatusAbove(n) => w.status > n
    case StatusFrom(n) => w.status >= n
    case StatusBelow(n) => w.status < n
    case ReceivedFrom => !LexLess(FormatTime(w.receivedAt), args[0])
    case ReceivedBefore => LexLess(FormatTime(w.receivedAt), args[0])
  }

  function AllPlaceholders(clauses: seq<Clause>): nat {
    if clauses == [] then 0 else AllPlaceholders(clauses[..|clauses| - 1]) + Placeholders(clauses[|clauses| - 1])
  }

  /** clause AND clause AND ...; no WHERE at all when there is none. */
  predicate EvalWhere(clauses: seq<Clause>, args: seq<string>, w: Webhook)
    requires |args| == AllPlaceholders(clauses)
  {
    clauses == [] ||
    var (front, last) := (clauses[..|clauses| - 1], clauses[|clauses| - 1]);
    var n := AllPlaceholders(front);
    EvalWhere(front, args[..n], w) && Eval(last, args[n..], w)
  }

  const SEARCH: Clause :=
    Or(LowerLike(Id),
      Or(LowerLike(Token),
        Or(LowerLike(Method), Or(LowerLike(Path), Or(LowerLike(Body), LowerLike(ResponseBody))))))

  function Pattern(text: string): string {
    "%" + Lower(text) + "%"
  }

  // ---- what a query means ----

  predicate MatchesSearch(search: string, w: Webhook) {
    || search == ""
    || Like(Pattern(search), Lower(w.id)) || Like(Pattern(search), Lower(w.token))
    || Like(Pattern(search), Lower(w.httpMethod)) || Like(Pattern(search), Lower(w.path))
    || Like(Pattern(search), Lower(w.body)) || Like(Pattern(search), Lower(w.responseBody))
  }

  predicate MatchesPath(path: string, w: Webhook) {
    path == "" || Like(Pattern(path), Lower(w.path))
  }

  predicate MatchesStatus(status: StatusFilter, w: Webhook) {
    match status
    case AnyStatus => true
    case PendingOnly => w.status == 0
    case DeliveredOnly => w.status > 0
    case Class2xx => 200 <= w.status < 300
    case Class3xx => 300 <= w.status < 400
    case Class4xx => 400 <= w.status < 500
    case Class5xx => 500 <= w.status < 600
  }

  /** By instants, not by texts. */
  predicate MatchesDates(from: AnyTime, to: AnyTime, w: Webhook) {
    && (from == ZERO_TIME || Instant(from) <= Instant(w.receivedAt))
    && (to == ZERO_TIME || Instant(w.receivedAt) < Instant(to))
  }

  predicate Matches(q: Query, w: Webhook) {
    && MatchesSearch(TrimSpace(q.search), w)
    && MatchesPath(TrimSpace(q.pathContains), w)
    && MatchesStatus(q.status, w)
    && MatchesDates(q.from, q.to, w)
  }

  /** The query the database answers, which compares the bounds as texts. */
  function Stored(q: Query): Query {
    q.(from := AsText(q.from), to := AsText(q.to))
  }

  // ---- compiling ----

  lemma {:induction false} Appended(
      clauses: seq<Clause>, args: seq<string>, clause: Clause, more: seq<string>, w: Webhook)
    requires |args| == AllPlaceholders(clauses) && |more| == Placeholders(clause)
    ensures AllPlaceholders(clauses + [clause]) == |args + more|
    ensures EvalWhere(clauses + [clause], args + more, w) <==> EvalWhere(clauses, args, w) && Eval(clause, more, w)
  {
    var all := clauses + [clause];
    assert all[..|all| - 1] == clauses && all[|all| - 1] == clause;
    assert (args + more)[..|args|] == args && (args + more)[|args|..] == more;
    hide Eval;
  }

  lemma {:induction false} SearchClauseMeans(search: string, w: Webhook)
    requires search != ""
    ensures var p := Pattern(search); Eval(SEARCH, [p, p, p, p, p, p], w) <==> MatchesSearch(search, w)
  {
    var p := Pattern(search);
    hide Like, Lower, Pattern;
    var bodies := Or(LowerLike(Body), LowerLike(ResponseBody));
    var fromPath := Or(LowerLike(Path), bodies);
    var fromMethod := Or(LowerLike(Method), fromPath);
    var fromToken := Or(LowerLike(Token), fromMethod);
    OrLike(Id, fromToken, p, [p, p, p, p, p], w);
    OrLike(Token, fromMethod, p, [p, p, p, p], w);
    OrLike(Method, fromPath, p, [p, p, p], w);
    OrLike(Path, bodies, p, [p, p], w);
    OrLike(Body, LowerLike(ResponseBody), p, [p], w);
    hide Eval;
  }

  lemma {:induction false} OrLike(column: Column, rest: Clause, p: string, more: seq<string>, w: Webhook)
    requires |more| == Placeholders(rest)
    ensures Placeholders(Or(LowerLike(column), rest)) == |[p] + more|
    ensures Eval(Or(LowerLike(column), rest), [p] + more, w) <==>
            Like(p, Lower(ColumnText(w, column))) || Eval(rest, more, w)
  {
    hide Like, Lower;
    assert ([p] + more)[..1] == [p] && ([p] + more)[1..] == more;
  }

  function StatusClauses(status: StatusFilter): seq<Clause> {
    match status
    case AnyStatus => []
    case PendingOnly => [StatusIs(0)]
    case DeliveredOnly => [StatusAbove(0)]
    case Class2xx => [And(StatusFrom(200), StatusBelow(300))]
    case Class3xx => [And(StatusFrom(300), StatusBelow(400))]
    case Class4xx => [And(StatusFrom(400), StatusBelow(500))]
    case Class5xx => [And(StatusFrom(500), StatusBelow(600))]
  }

  lemma {:induction false} AppendedAll(clauses: seq<Clause>, args: seq<string>, clause: Clause, more: seq<string>)
    requires |args| == AllPlaceholders(clauses) && |more| == Placeholders(clause)
    ensures AllPlaceholders(clauses + [clause]) == |args + more|
    ensures forall w :: EvalWhere(clauses + [clause], args + more, w) <==>
            EvalWhere(clauses, args, w) && Eval(clause, more, w)
  {
    hide Eval, EvalWhere;
    forall w
      ensures AllPlaceholders(clauses + [clause]) == |args + more|
      ensures EvalWhere(clauses + [clause], args + more, w) <==> EvalWhere(clauses, args, w) && Eval(clause, more, w)
    {
      Appended(clauses, args, clause, more, w);
    }
  }

  lemma {:induction false} SearchMeans(search: string)
    requires search != ""
    ensures Placeholders(SEARCH) == 6
    ensures var p := Pattern(search); forall w :: Eval(SEARCH, [p, p, p, p, p, p], w) <==> MatchesSearch(search, w)
  {
    forall w ensures var p := Pattern(search); Eval(SEARCH, [p, p, p, p, p, p], w) <==> MatchesSearch(search, w) {
      SearchClauseMeans(search, w);
    }
  }

  lemma {:induction false} PathMeans(path: string)
    requires path != ""
    ensures Placeholders(LowerLike(Path)) == 1
    ensures forall w :: Eval(LowerLike(Path), [Pattern(path)], w) <==> MatchesPath(path, w)
  {
    hide Like, Lower, Pattern;
  }

  lemma {:induction false} StatusMeans(status: StatusFilter)
    requires status != AnyStatus
    ensures |StatusClauses(status)| == 1 && Placeholders(StatusClauses(status)[0]) == 0
    ensures forall w :: Eval(StatusClauses(status)[0], [], w) <==> MatchesStatus(status, w)
  {
  }

  /** The bounds are compared as texts. */
  lemma {:induction false} DatesMean(bound: AnyTime)
    ensures Placeholders(ReceivedFrom) == 1 && Placeholders(ReceivedBefore) == 1
    ensures forall w :: Eval(ReceivedFrom, [FormatTime(bound)], w) <==> Instant(AsText(bound)) <= Instant(w.receivedAt)
    ensures forall w :: Eval(ReceivedBefore, [FormatTime(bound)], w) <==> Instant(w.receivedAt) < Instant(AsText(bound))
  {
    hide Instant, FormatTime, LexLess, AsText;
    forall w: Webhook ensures LexLess(FormatTime(w.receivedAt), FormatTime(bound)) <==>
        Instant(w.receivedAt) < Instant(AsText(bound)) {
      BoundAsText(w.receivedAt, bound);
    }
  }

  /** The query's first `stage` conditions: search, path, status, from, to. */
  predicate MatchesSoFar(q: Query, w: Webhook, stage: nat) {
    && (stage >= 1 ==> MatchesSearch(TrimSpace(q.search), w))
    && (stage >= 2 ==> MatchesPath(TrimSpace(q.pathContains), w))
    && (stage >= 3 ==> MatchesStatus(q.status, w))
    && (stage >= 4 ==> q.from == ZERO_TIME || Instant(AsText(q.from)) <= Instant(w.receivedAt))
    && (stage >= 5 ==> q.to == ZERO_TIME || Instant(w.receivedAt) < Instant(AsText(q.to)))
  }

  /** Clauses and arguments fit, and say what the first `stage` conditions do. */
  ghost predicate Compiled(q: Query, clauses: seq<Clause>, args: seq<string>, stage: nat) {
    |args| == AllPlaceholders(clauses) && forall w :: EvalWhere(clauses, args, w) <==> MatchesSoFar(q, w, stage)
  }

  lemma {:induction false} NextStage(
      q: Query, clauses: seq<Clause>, args: seq<string>, stage: nat, clause: Clause, more: seq<string>)
    requires Compiled(q, clauses, args, stage) && |more| == Placeholders(clause)
    requires forall w :: MatchesSoFar(q, w, stage + 1) <==> MatchesSoFar(q, w, stage) && Eval(clause, more, w)
    ensures Compiled(q, clauses + [clause], args + more, stage + 1)
  {
    hide Eval, EvalWhere, MatchesSoFar, AllPlaceholders, Placeholders;
    AppendedAll(clauses, args, clause, more);
  }

  lemma {:induction false} SkipStage(q: Query, clauses: seq<Clause>, args: seq<string>, stage: nat)
    requires Compiled(q, clauses, args, stage)
    requires forall w :: MatchesSoFar(q, w, stage + 1) <==> MatchesSoFar(q, w, stage)
    ensures Compiled(q, clauses, args, stage + 1)
  {
    hide EvalWhere, MatchesSoFar, AllPlaceholders;
  }

  lemma {:induction false} SearchStage(q: Query, clauses: seq<Clause>, args: seq<string>)
    requires Compiled(q, clauses, args, 0)
    ensures var p := Pattern(TrimSpace(q.search));
            if TrimSpace(q.search) != "" then Compiled(q, clauses + [SEARCH], args + [p, p, p, p, p, p], 1)
            else Compiled(q, clauses, args, 1)
  {
    hide Eval, Compiled, Pattern, TrimSpace, MatchesPath, MatchesStatus, Instant;
    var search := TrimSpace(q.search);
    if search != "" {
      SearchMeans(search);
      hide MatchesSearch;
      var p := Pattern(search);
      NextStage(q, clauses, args, 0, SEARCH, [p, p, p, p, p, p]);
    } else {
      SkipStage(q, clauses, args, 0);
    }
  }

  lemma {:induction false} PathStage(q: Query, clauses: seq<Clause>, args: seq<string>)
    requires Compiled(q, clauses, args, 1)
    ensures var path := TrimSpace(q.pathContains);
            if path != "" then Compiled(q, clauses + [LowerLike(Path)], args + [Pattern(path)], 2)
            else Compiled(q, clauses, args, 2)
  {
    hide Eval, Compiled, Pattern, TrimSpace, MatchesSearch, MatchesStatus, Instant;
    var path := TrimSpace(q.pathContains);
    if path != "" {
      PathMeans(path);
      NextStage(q, clauses, args, 1, LowerLike(Path), [Pattern(path)]);
    } else {
      SkipStage(q, clauses, args, 1);
    }
  }

  lemma {:induction false} StatusStage(q: Query, clauses: seq<Clause>, args: seq<string>)
    requires Compiled(q, clauses, args, 2)
    ensures if q.status != AnyStatus then |StatusClauses(q.status)| == 1
            && Compiled(q, clauses + [StatusClauses(q.status)[0]], args, 3)
            else Compiled(q, clauses, args, 3)
  {
    hide Eval, Compiled, TrimSpace, MatchesSearch, MatchesPath, Instant;
    if q.status != AnyStatus {
      StatusMeans(q.status);
      hide MatchesStatus;
      assert args + [] == args;
      NextStage(q, clauses, args, 2, StatusClauses(q.status)[0], []);
    } else {
      SkipStage(q, clauses, args, 2);
    }
  }

  lemma {:induction false} FromStage(q: Query, clauses: seq<Clause>, args: seq<string>)
    requires Compiled(q, clauses, args, 3)
    ensures if q.from != ZERO_TIME then Compiled(q, clauses + [ReceivedFrom], args + [FormatTime(q.from)], 4)
            else Compiled(q, clauses, args, 4)
  {
    hide Eval, Compiled, TrimSpace, MatchesSearch, MatchesPath, MatchesStatus, Instant, FormatTime, AsText;
    if q.from != ZERO_TIME {
      DatesMean(q.from);
      NextStage(q, clauses, args, 3, ReceivedFrom, [FormatTime(q.from)]);
    } else {
      SkipStage(q, clauses, args, 3);
    }
  }

  lemma {:induction false} ToStage(q: Query, clauses: seq<Clause>, args: seq<string>)
    requires Compiled(q, clauses, args, 4)
    ensures if q.to != ZERO_TIME then Compiled(q, clauses + [ReceivedBefore], args + [FormatTime(q.to)], 5)
            else Compiled(q, clauses, args, 5)
  {
    hide Eval, Compiled, TrimSpace, MatchesSearch, MatchesPath, MatchesStatus, Instant, FormatTime, AsText;
    if q.to != ZERO_TIME {
      DatesMean(q.to);
      NextStage(q, clauses, args, 4, ReceivedBefore, [FormatTime(q.to)]);
    } else {
      SkipStage(q, clauses, args, 4);
    }
  }

  /** The compiled clauses hold of a row exactly when the query matches it, its bounds taken
      as texts, and there is one argument for every placeholder. So they say what the query
      means, of all rows, exactly when the bounds fit. */
  method WebhookWhere(q: Query) returns (clauses: seq<Clause>, args: seq<string>)
    ensures |args| == AllPlaceholders(clauses)
    ensures forall w :: EvalWhere(clauses, args, w) <==> Matches(Stored(q), w)
    ensures (forall w :: EvalWhere(clauses, args, w) <==> Matches(q, w)) <==> BoundsFit(q.from, q.to)
  {
    clauses, args := [], [];
    assert Compiled(q, clauses, args, 0);

    SearchStage(q, clauses, args);
    var search := TrimSpace(q.search);
    if search != "" {
      var pattern := Pattern(search);
      clauses := clauses + [SEARCH];
      args := args + [pattern, pattern, pattern, pattern, pattern, pattern];
    }

    PathStage(q, clauses, args);
    var path := TrimSpace(q.pathContains);
    if path != "" {
      clauses := clauses + [LowerLike(Path)];
      args := args + [Pattern(path)];
    }

    StatusStage(q, clauses, args);
    if q.status != AnyStatus {
      clauses := clauses + [StatusClauses(q.status)[0]];
    }

    FromStage(q, clauses, args);
    if q.from != ZERO_TIME {
      clauses := clauses + [ReceivedFrom];
      args := args + [FormatTime(q.from)];
    }

    ToStage(q, clauses, args);
    if q.to != ZERO_TIME {
      clauses := clauses + [ReceivedBefore];
      args := args + [FormatTime(q.to)];
    }
    CompiledMeans(q, clauses, args);
    hide EvalWhere, Matches, AllPlaceholders, Stored, BoundsFit;
    QueryLimit(q);
  }

  lemma {:induction false} CompiledMeans(q: Query, clauses: seq<Clause>, args: seq<string>)
    requires Compiled(q, clauses, args, 5)
    ensures |args| == AllPlaceholders(clauses) && forall w :: EvalWhere(clauses, args, w) <==> Matches(Stored(q), w)
  {
    hide EvalWhere, MatchesSearch, MatchesPath, MatchesStatus, Instant, TrimSpace, FirstDigits;
  }

  // ---- LIKE ----

  predicate OccursAt(text: string, part: string, i: int) {
    0 <= i <= |text| - |part| && text[i..i + |part|] == part
  }

  predicate Contains(text: string, part: string) {
    exists i | 0 <= i <= |text| :: OccursAt(text, part, i)
  }

  predicate NoWildcards(s: string) {
    '%' !in s && '_' !in s
  }

  lemma {:induction false} LowerTail(s: string)
    ensures s != [] ==> Lower(s) == [LowerChar(s[0])] + Lower(s[1..])
    ensures forall i | 0 <= i < |s| :: LowerChar(Lower(s)[i]) == Lower(s)[i]
  {
  }

  /** s% matches the texts that start with s, letters compared in lower case. */
  lemma {:induction false} LikePrefix(s: string, text: string)
    requires NoWildcards(s)
    ensures Like(s + "%", text) <==> OccursAt(Lower(text), Lower(s), 0)
    decreases |s|
  {
    var (ls, lt) := (Lower(s), Lower(text));
    if s == [] {
      assert s + "%" == "%";
      AnyText(text);
      assert lt[0..0] == [];
    } else {
      assert (s + "%")[0] == s[0] && (s + "%")[1..] == s[1..] + "%";
      if text != [] {
        LikePrefix(s[1..], text[1..]);
        LowerTail(s);
        LowerTail(text);
        if |s| <= |text| {
          assert lt[0..|s|] == [lt[0]] + lt[1..][0..|s| - 1];
          assert lt[1..] == Lower(text[1..]) && ls[1..] == Lower(s[1..]);
        }
      }
    }
  }

  lemma {:induction false} AnyText(text: string)
    ensures Like("%", text)
  {
    if text != [] { AnyText(text[1..]); }
    assert "%"[1..] == [];
  }

  lemma {:induction false} ContainsTail(text: string, part: string)
    requires text != []
    ensures Contains(text, part) <==> OccursAt(text, part, 0) || Contains(text[1..], part)
  {
    if i :| 1 <= i <= |text| && OccursAt(text, part, i) {
      assert text[1..][i - 1..i - 1 + |part|] == text[i..i + |part|];
      assert OccursAt(text[1..], part, i - 1);
    }
    if i :| 0 <= i <= |text[1..]| && OccursAt(text[1..], part, i) {
      assert text[1..][i..i + |part|] == text[i + 1..i + 1 + |part|];
      assert OccursAt(text, part, i + 1);
    }
  }

  /** %s% matches the texts that contain s at some place, letters compared in lower case. */
  lemma {:induction false} LikeContains(s: string, text: string)
    requires NoWildcards(s)
    ensures Like("%" + s + "%", text) <==> Contains(Lower(text), Lower(s))
    decreases |text|
  {
    var p := "%" + s + "%";
    assert p[0] == '%' && p[1..] == s + "%";
    LikePrefix(s, text);
    if text != [] {
      LikeContains(s, text[1..]);
      LowerTail(text);
      assert Lower(text)[1..] == Lower(text[1..]);
      ContainsTail(Lower(text), Lower(s));
    }
    hide Lower;
  }

  /** Surrounding white space is dropped from a filter text, and nothing else. */
  lemma {:induction false} TrimSpaceTrims(s: string) returns (before: string, after: string)
    ensures s == before + TrimSpace(s) + after
    ensures forall c | c in before + after :: c in {' ', '\t', '\n', '\r', 11 as char, 12 as char}
    ensures var t := TrimSpace(s); t != "" ==>
              t[0] !in {' ', '\t', '\n', '\r', 11 as char, 12 as char}
              && t[|t| - 1] !in {' ', '\t', '\n', '\r', 11 as char, 12 as char}
  {
    before := LeftTrimmed(s);
    after := RightTrimmed(TrimLeft(s));
    assert s == before + (TrimSpace(s) + after);
    if TrimSpace(s) != "" { assert TrimSpace(s)[0] == TrimLeft(s)[0]; }
  }

  lemma {:induction false} LeftTrimmed(s: string) returns (before: string)
    ensures s == before + TrimLeft(s) && (forall c | c in before :: Space(c))
    ensures TrimLeft(s) != "" ==> !Space(TrimLeft(s)[0])
  {
    before := [];
    if s != [] && Space(s[0]) {
      var rest := LeftTrimmed(s[1..]);
      before := [s[0]] + rest;
    }
  }

  lemma {:induction false} RightTrimmed(s: string) returns (after: string)
    ensures s == TrimRight(s) + after && (forall c | c in after :: Space(c))
    ensures TrimRight(s) != "" ==> !Space(TrimRight(s)[|TrimRight(s)| - 1])
  {
    after := [];
    if s != [] && Space(s[|s| - 1]) {
      var rest := RightTrimmed(s[..|s| - 1]);
      after := rest + [s[|s| - 1]];
    }
  }

  /** Lower case: the 26 capital letters become small, everything else stays. */
  lemma {:induction false} LowerMeans(s: string)
    ensures |Lower(s)| == |s|
    ensures forall i | 0 <= i < |s| ::
              Lower(s)[i] as int == if 65 <= s[i] as int <= 90 then s[i] as int + 32 else s[i] as int
  {
  }

  /** A filter text without wildcards is looked for as a part of the column's text, letters in
      either case alike. */
  lemma {:induction false} FilterTextMeans(part: string, text: string)
    requires NoWildcards(part)
    ensures Like(Pattern(part), Lower(text)) <==> Contains(Lower(text), Lower(part))
  {
    LowerTwice(part);
    LowerTwice(text);
    LowerHasNoWildcards(part);
    LikeContains(Lower(part), Lower(text));
  }

  lemma {:induction false} LowerHasNoWildcards(s: string)
    requires NoWildcards(s)
    ensures NoWildcards(Lower(s))
  {
    forall c | c in Lower(s) ensures c != '%' && c != '_' {
      var i :| 0 <= i < |s| && Lower(s)[i] == c;
      assert s[i] in s;
    }
  }

  /** The wildcards of s replaced by a letter. */
  function Plain(s: string): (r: string)
    ensures |r| == |s|
  {
    if s == [] then [] else [if s[0] == '%' || s[0] == '_' then 'a' else s[0]] + Plain(s[1..])
  }

  lemma {:induction false} LikePlain(s: string)
    ensures Like(s + "%", Plain(s))
    ensures Plain(s) == s <==> NoWildcards(s)
  {
    if s == [] {
      assert s + "%" == "%";
      AnyText([]);
    } else {
      LikePlain(s[1..]);
      assert (s + "%")[1..] == s[1..] + "%" && Plain(s)[1..] == Plain(s[1..]);
      assert s == [s[0]] + s[1..];
      if s[0] == '%' { assert Like(s + "%", Plain(s)[1..]); }
    }
  }

  lemma {:induction false} LowerPlain(s: string)
    requires Lower(s) == s
    ensures Lower(Plain(s)) == Plain(s)
  {
    if s != [] {
      assert Lower(s)[1..] == Lower(s[1..]);
      LowerPlain(s[1..]);
    }
  }

  /** A filter text finds exactly the texts that contain it, for every lower-case text,
      exactly when it has no % and no _. */
  lemma {:induction false} LikeIsContainment(s: string)
    requires Lower(s) == s
    ensures (forall text | Lower(text) == text :: Like(Pattern(s), text) <==> Contains(text, s)) <==> NoWildcards(s)
  {
    if NoWildcards(s) {
      forall text | Lower(text) == text ensures Like(Pattern(s), text) <==> Contains(text, s) {
        LikeContains(s, text);
      }
    } else {
      var t := Plain(s);
      LikePlain(s);
      assert Pattern(s)[1..] == s + "%";
      assert Like(Pattern(s), t);
      LowerPlain(s);
      assert t[0..|s|] == t;
      assert !Contains(t, s);
    }
  }

  // ---- bounds beyond the year 9999 ----

  /** Comparing stored times with these bounds as texts is comparing instants: an upper bound
      has at most four digits of year, or begins with 9999. A lower bound beyond the year 9999
      excludes everything, so as text it must too, alone or with the upper bound. */
  predicate BoundsFit(from: AnyTime, to: AnyTime) {
    if from.year <= 9999 then to.year <= 9999 || AsText(to).year > 9999
    else AsText(from).year > 9999 || (to != ZERO_TIME && Instant(AsText(to)) <= Instant(AsText(from)))
  }

  const LAST_TIME: UtcTime := Civil(9999, 12, 31, 23, 59, 59, 999_999_999)

  /** Stored times come before every time beyond the year 9999, and not after the last of it. */
  lemma {:induction false} StoredTimes(a: UtcTime, bound: AnyTime)
    ensures bound.year > 9999 ==> Instant(a) < Instant(bound)
    ensures bound.year <= 9999 ==> Instant(bound) <= Instant(LAST_TIME)
  {
    hide Instant;
    EarlierIsInstantOrder(a, bound);
    EarlierIsInstantOrder(LAST_TIME, bound);
  }

  /** A stored time that tells the bounds from the bounds as texts. */
  lemma {:induction false} Telling(from: AnyTime, to: AnyTime) returns (a: UtcTime)
    requires !BoundsFit(from, to)
    ensures forall w: Webhook | w.receivedAt == a ::
              MatchesDates(AsText(from), AsText(to), w) != MatchesDates(from, to, w)
  {
    hide Instant;
    a := if from.year <= 9999 || to == ZERO_TIME then LAST_TIME else AsText(from);
    StoredTimes(a, from);
    StoredTimes(a, to);
    StoredTimes(a, AsText(from));
    StoredTimes(a, AsText(to));
    EarlierIsInstantOrder(LAST_TIME, AsText(to));
    hide FirstDigits;
  }

  /** A row that the query's other conditions match. */
  lemma {:induction false} SomeRow(q: Query, a: UtcTime) returns (w: Webhook)
    ensures w.receivedAt == a && MatchesSearch(TrimSpace(q.search), w) && MatchesPath(TrimSpace(q.pathContains), w)
    ensures MatchesStatus(q.status, w)
  {
    var (search, path) := (TrimSpace(q.search), TrimSpace(q.pathContains));
    var status := match q.status
      case AnyStatus => 0
      case PendingOnly => 0
      case DeliveredOnly => 200
      case Class2xx => 200
      case Class3xx => 300
      case Class4xx => 400
      case Class5xx => 500;
    w := Webhook(Plain(Lower(search)), "", "", Plain(Lower(path)), map[], "", "", a, status, "");
    PatternFinds(search);
    PatternFinds(path);
    assert ColumnText(w, Id) == w.id;
    hide Like, Lower, Plain, TrimSpace;
  }

  lemma {:induction false} PatternFinds(s: string)
    ensures Like(Pattern(s), Lower(Plain(Lower(s))))
  {
    var low := Lower(s);
    LowerTwice(s);
    LowerPlain(low);
    LikePlain(low);
    assert Pattern(s)[0] == '%' && Pattern(s)[1..] == low + "%";
  }

  lemma {:induction false} LowerTwice(s: string)
    ensures Lower(Lower(s)) == Lower(s)
  {
  }

  lemma {:induction false} QueryLimit(q: Query)
    ensures (forall w :: Matches(Stored(q), w) <==> Matches(q, w)) <==> BoundsFit(q.from, q.to)
  {
    hide MatchesSearch, MatchesPath, MatchesStatus, TrimSpace;
    if BoundsFit(q.from, q.to) {
      forall w ensures Matches(Stored(q), w) <==> Matches(q, w) {
        FittingBounds(q.from, q.to, w);
        hide MatchesDates, AsText;
      }
    } else {
      var a := Telling(q.from, q.to);
      var w := SomeRow(q, a);
      hide MatchesDates, AsText;
      assert Matches(Stored(q), w) != Matches(q, w);
    }
  }

  lemma {:induction false} FittingBounds(from: AnyTime, to: AnyTime, w: Webhook)
    requires BoundsFit(from, to)
    ensures MatchesDates(AsText(from), AsText(to), w) <==> MatchesDates(from, to, w)
  {
    hide Instant;
    StoredTimes(w.receivedAt, from);
    StoredTimes(w.receivedAt, to);
    StoredTimes(w.receivedAt, AsText(from));
    StoredTimes(w.receivedAt, AsText(to));
    hide FirstDigits;
  }

  // ---- the dashboard's dates ----

  /** What a date field of the dashboard's form can be read as. */
  type FormDate = d: Date | ValidDate(d.year, d.month, d.day) && d.year <= 9999 witness Date(1, 1, 1)

  /** The dashboard asks for times from the first day's midnight to the midnight after the
      last day. */
  function WithDates(q: Query, first: Option<FormDate>, last: Option<FormDate>): Query {
    q.(from := if first.Some? then Midnight(first.value) else ZERO_TIME,
       to := if last.Some? then Midnight(NextDay(last.value)) else ZERO_TIME)
  }

  function DayOf(a: UtcTime): nat {
    DayNumber(a.year, a.month, a.day)
  }

  function Days(d: FormDate): nat {
    DayNumber(d.year, d.month, d.day)
  }

  predicate InDays(first: Option<FormDate>, last: Option<FormDate>, w: Webhook) {
    && (first.Some? ==> Days(first.value) <= DayOf(w.receivedAt))
    && (last.Some? ==> DayOf(w.receivedAt) <= Days(last.value))
  }

  predicate MatchesOthers(q: Query, w: Webhook) {
    MatchesSearch(TrimSpace(q.search), w) && MatchesPath(TrimSpace(q.pathContains), w) && MatchesStatus(q.status, w)
  }

  lemma {:induction false} MidnightsMean(d: FormDate, a: UtcTime)
    ensures Instant(Midnight(d)) <= Instant(a) <==> Days(d) <= DayOf(a)
    ensures Instant(a) < Instant(Midnight(NextDay(d))) <==> DayOf(a) <= Days(d)
  {
    var next := NextDay(d);
    DayNumberCounts(d);
    DayThenClock(DayOf(a), NanoOfDay(a), DayNumber(d.year, d.month, d.day), 0);
    DayThenClock(DayOf(a), NanoOfDay(a), DayNumber(next.year, next.month, next.day), 0);
    assert NanoOfDay(Midnight(d)) == NanoOfDay(Midnight(next)) == 0;
    hide DayNumber, NanoOfDay, NextDay;
  }

  predicate GoodDates(first: Option<FormDate>, last: Option<FormDate>) {
    first != Some(Date(1, 1, 1)) && last != Some(Date(0, 12, 31)) && last != Some(Date(9999, 12, 31))
  }

  lemma {:induction false} NextDayEdges(d: FormDate)
    ensures NextDay(d).year > 9999 <==> d == Date(9999, 12, 31)
    ensures Midnight(NextDay(d)) == ZERO_TIME <==> d == Date(0, 12, 31)
    ensures d == Date(9999, 12, 31) ==> AsText(Midnight(NextDay(d))) == Midnight(Date(1001, 1, 1))
  {
    if d == Date(9999, 12, 31) {
      assert NextDay(d) == Date(10_000, 1, 1);
      assert FirstDigits(10_000) == FirstDigits(1000);
    }
  }

  lemma {:induction false} GoodDatesMean(q: Query, first: Option<FormDate>, last: Option<FormDate>, w: Webhook)
    requires GoodDates(first, last)
    ensures var s := Stored(WithDates(q, first, last)); MatchesDates(s.from, s.to, w) <==> InDays(first, last, w)
  {
    if first.Some? {
      MidnightsMean(first.value, w.receivedAt);
    }
    if last.Some? {
      MidnightsMean(last.value, w.receivedAt);
      NextDayEdges(last.value);
    }
    hide Days, Instant, NextDay, DayOf, FirstDigits;
  }

  lemma {:induction false} BadDatesMiss(q: Query, first: Option<FormDate>, last: Option<FormDate>) returns (a: UtcTime)
    requires !GoodDates(first, last)
    ensures forall w: Webhook | w.receivedAt == a ::
              var s := Stored(WithDates(q, first, last)); MatchesDates(s.from, s.to, w) != InDays(first, last, w)
  {
    hide NextDay, Days, DayOf, Instant, AsText;
    if last.Some? { NextDayEdges(last.value); }
    if first == Some(Date(1, 1, 1)) {
      a := Midnight(Date(0, 1, 1));
      EarlyRow(last);
    } else {
      a := LAST_TIME;
      LateRow(first);
    }
  }

  lemma {:induction false} EarlyRow(last: Option<FormDate>)
    ensures DayOf(Midnight(Date(0, 1, 1))) < Days(Date(1, 1, 1))
    ensures last.Some? ==> Instant(Midnight(Date(0, 1, 1))) < Instant(AsText(Midnight(NextDay(last.value))))
  {
    EarlierIsInstantOrder(Midnight(Date(0, 1, 1)), Midnight(Date(1, 1, 1)));
    if last.Some? {
      EarlierIsInstantOrder(Midnight(Date(0, 1, 1)), AsText(Midnight(NextDay(last.value))));
    }
    hide Instant, AsText;
  }

  lemma {:induction false} LateRow(first: Option<FormDate>)
    ensures first.Some? ==> Instant(Midnight(first.value)) <= Instant(LAST_TIME)
    ensures first.Some? ==> Days(first.value) <= DayOf(LAST_TIME)
    ensures Days(Date(0, 12, 31)) < Days(Date(9999, 12, 31)) == DayOf(LAST_TIME)
    ensures Instant(Midnight(Date(1001, 1, 1))) < Instant(LAST_TIME)
  {
    hide Instant, DayNumber;
    EarlierIsInstantOrder(Midnight(Date(1001, 1, 1)), LAST_TIME);
    DateOrder(Midnight(Date(0, 12, 31)), LAST_TIME);
    if first.Some? {
      StoredTimes(LAST_TIME, Midnight(first.value));
      MidnightsMean(first.value, LAST_TIME);
    }
  }

  /** The dashboard's filter finds exactly the rows received on those days, whatever else it
      asks for, exactly when its last day is not the last of year 9999, whose next midnight
      compares as text like 1001-01-01, and no bound is the zero time. */
  lemma {:induction false} DashboardLimit(q: Query, first: Option<FormDate>, last: Option<FormDate>)
    ensures (forall w :: Matches(Stored(WithDates(q, first, last)), w)
              <==> MatchesOthers(q, w) && InDays(first, last, w))
            <==> GoodDates(first, last)
  {
    hide MatchesSearch, MatchesPath, MatchesStatus, TrimSpace;
    var s := Stored(WithDates(q, first, last));
    if GoodDates(first, last) {
      forall w ensures Matches(s, w) <==> MatchesOthers(q, w) && InDays(first, last, w) {
        GoodDatesMean(q, first, last, w);
        hide MatchesDates, InDays, AsText;
      }
    } else {
      var a := BadDatesMiss(q, first, last);
      var w := SomeRow(q, a);
      hide MatchesDates, InDays, AsText;
      assert Matches(s, w) != (MatchesOthers(q, w) && InDays(first, last, w));
    }
  }

  /** With the last day 9999-12-31, which every row was received by, every row of the year
      1001 and later is hidden. */
  lemma {:induction false} LastDayHidesAll(q: Query, first: Option<FormDate>, w: Webhook)
    requires w.receivedAt.year >= 1001
    ensures !Matches(Stored(WithDates(q, first, Some(Date(9999, 12, 31)))), w)
    ensures InDays(None, Some(Date(9999, 12, 31)), w)
  {
    hide MatchesSearch, MatchesPath, MatchesStatus, TrimSpace, Instant, FirstDigits, NextDay, DayNumber;
    NextDayEdges(Date(9999, 12, 31));
    EarlierIsInstantOrder(w.receivedAt, Midnight(Date(1001, 1, 1)));
    MidnightsMean(Date(9999, 12, 31), w.receivedAt);
    StoredTimes(w.receivedAt, Midnight(NextDay(Date(9999, 12, 31))));
  }
}
