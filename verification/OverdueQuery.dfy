/** The overdue-ticket query (core/pkg/coordinator/find_overdue_tickets.go): printing with escapes, and reading back. */
module OverdueQuery {
  import opened Options

  // ---------------------------------------------------------------- quoting

  /** strings.ReplaceAll for a one-character pattern. */
  function ReplaceAll(s: string, c: char, other: string): string {
    if s == "" then "" else (if s[0] == c then other else [s[0]]) + ReplaceAll(s[1..], c, other)
  }

  function JqlQuote(s: string): string {
    var escaped := ReplaceAll(s, '\\', "\\\\");
    var escaped' := ReplaceAll(escaped, '"', "\\\"");
    "\"" + escaped' + "\""
  }

  /** Each backslash and each quote gets a backslash in front. */
  function Escape(s: string): string {
    if s == "" then ""
    else (if s[0] == '\\' || s[0] == '"' then ['\\', s[0]] else [s[0]]) + Escape(s[1..])
  }

  lemma {:induction false} ReplaceAllConcat(s: string, t: string, c: char, other: string)
    ensures ReplaceAll(s + t, c, other) == ReplaceAll(s, c, other) + ReplaceAll(t, c, other)
  {
    if s == "" {
      assert s + t == t;
    } else {
      assert (s + t)[1..] == s[1..] + t;
      ReplaceAllConcat(s[1..], t, c, other);
    }
  }

  /** The two replacements in their order, backslashes first, are one escape of each character; in the other order the
      backslashes put in for quotes would be doubled. */
  lemma {:induction false} SequentialReplacementsEscape(s: string)
    ensures ReplaceAll(ReplaceAll(s, '\\', "\\\\"), '"', "\\\"") == Escape(s)
  {
    if s != "" {
      var head := if s[0] == '\\' then "\\\\" else [s[0]];
      SequentialReplacementsEscape(s[1..]);
      ReplaceAllConcat(head, ReplaceAll(s[1..], '\\', "\\\\"), '"', "\\\"");
      EscapeHead(s[0]);
    }
  }

  lemma EscapeHead(c: char)
    ensures ReplaceAll(if c == '\\' then "\\\\" else [c], '"', "\\\"") == if c == '\\' || c == '"' then ['\\', c] else [c]
  {
    if c == '\\' {
      assert "\\\\"[1..] == "\\";
      assert ReplaceAll("\\", '"', "\\\"") == "\\" + ReplaceAll("\\"[1..], '"', "\\\"");
    } else {
      assert [c][1..] == "";
    }
  }

  // ---------------------------------------------------------------- printing

  function Join(parts: seq<string>, sep: string): string {
    if parts == [] then ""
    else if |parts| == 1 then parts[0]
    else Join(parts[..|parts| - 1], sep) + sep + parts[|parts| - 1]
  }

  function Quoted(ss: seq<string>): seq<string> {
    seq(|ss|, i requires 0 <= i < |ss| => JqlQuote(ss[i]))
  }

  function Digit(d: nat): char
    requires d < 10
  {
    '0' + d as char
  }

  function Digits(n: nat): string {
    if n < 10 then [Digit(n)] else Digits(n / 10) + [Digit(n % 10)]
  }

  /** %d */
  function Decimal(n: int): string {
    if n < 0 then "-" + Digits(-n) else Digits(n)
  }

  function Query(project: string, assignee: string, statuses: seq<string>, ageDays: int): string {
    "project = " + (JqlQuote(project) + (" AND assignee = " + (JqlQuote(assignee) + (" AND status in ("
    + (Join(Quoted(statuses), ", ") + (") AND updated < -" + (Decimal(ageDays) + "d ORDER BY updated ASC")))))))
  }

  lemma Reassociate(a: string, b: string, c: string, d: string, e: string, f: string, g: string, h: string, i: string)
    ensures a + b + c + d + e + f + g + h + i == a + (b + (c + (d + (e + (f + (g + (h + i)))))))
  {
  }

  method ComposeOverdueJQL(project: string, assignee: string, statuses: seq<string>, ageDays: int) returns (jql: string)
    ensures jql == Query(project, assignee, statuses, ageDays)
  {
    var statusList: seq<string> := [];
    for i := 0 to |statuses|
      invariant statusList == Quoted(statuses)[..i]
    {
      statusList := statusList + [JqlQuote(statuses[i])];
    }
    assert statusList == Quoted(statuses);
    jql := "project = " + JqlQuote(project) + " AND assignee = " + JqlQuote(assignee) + " AND status in ("
      + Join(statusList, ", ") + ") AND updated < -" + Decimal(ageDays) + "d ORDER BY updated ASC";
    Reassociate("project = ", JqlQuote(project), " AND assignee = ", JqlQuote(assignee), " AND status in (",
                Join(statusList, ", "), ") AND updated < -", Decimal(ageDays), "d ORDER BY updated ASC");
  }

  // ---------------------------------------------------------------- reading back

  /** The keywords that the reader expects. */
  const PROJECT := "project = "
  const ASSIGNEE := " AND assignee = "
  const STATUS := " AND status in ("
  const UPDATED := ") AND updated < -"
  const ORDER := "d ORDER BY updated ASC"

  datatype Parsed<+T> = Parsed(value: T, rest: string)

  function Expect(s: string, prefix: string): Option<string> {
    if prefix <= s then Some(s[|prefix|..]) else None
  }

  /** A string literal after its opening quote: a backslash takes the next character as it is. */
  function ReadLiteral(s: string): Option<Parsed<string>> {
    if s == "" then None
    else if s[0] == '"' then Some(Parsed("", s[1..]))
    else if s[0] == '\\' then
      if |s| < 2 then None
      else
        match ReadLiteral(s[2..])
        case None => None
        case Some(p) => Some(Parsed([s[1]] + p.value, p.rest))
    else
      match ReadLiteral(s[1..])
      case None => None
      case Some(p) => Some(Parsed([s[0]] + p.value, p.rest))
  }

  function ReadQuoted(s: string): Option<Parsed<string>> {
    match Expect(s, "\"")
    case None => None
    case Some(rest) => ReadLiteral(rest)
  }

  /** Literals separated by commas, for as long as a comma follows. */
  function ReadMore(s: string, fuel: nat): Option<Parsed<seq<string>>>
    decreases fuel
  {
    if fuel == 0 || !(", " <= s) then Some(Parsed([], s))
    else
      match ReadQuoted(s[2..])
      case None => None
      case Some(p) =>
        match ReadMore(p.rest, fuel - 1)
        case None => None
        case Some(q) => Some(Parsed([p.value] + q.value, q.rest))
  }

  function ReadList(s: string): Option<Parsed<seq<string>>> {
    if !("\"" <= s) then Some(Parsed([], s))
    else
      match ReadQuoted(s)
      case None => None
      case Some(p) =>
        match ReadMore(p.rest, |p.rest|)
        case None => None
        case Some(q) => Some(Parsed([p.value] + q.value, q.rest))
  }

  predicate IsDigit(c: char) { '0' <= c <= '9' }

  function ReadDigits(s: string, acc: int): Parsed<int> {
    if s != "" && IsDigit(s[0]) then ReadDigits(s[1..], 10 * acc + (s[0] - '0') as int) else Parsed(acc, s)
  }

  function ReadInt(s: string): Parsed<int> {
    if s != "" && s[0] == '-' then var p := ReadDigits(s[1..], 0); Parsed(-p.value, p.rest) else ReadDigits(s, 0)
  }

  datatype Overdue = Overdue(project: string, assignee: string, statuses: seq<string>, ageDays: int)

  function Read(s: string): Option<Overdue> {
    match Expect(s, PROJECT)
    case None => None
    case Some(s1) =>
      match ReadQuoted(s1)
      case None => None
      case Some(project) =>
        match Expect(project.rest, ASSIGNEE)
        case None => None
        case Some(s2) =>
          match ReadQuoted(s2)
          case None => None
          case Some(assignee) => ReadTail(project.value, assignee.value, assignee.rest)
  }

  function ReadTail(project: string, assignee: string, s: string): Option<Overdue> {
    match Expect(s, STATUS)
    case None => None
    case Some(s1) =>
      match ReadList(s1)
      case None => None
      case Some(statuses) =>
        match Expect(statuses.rest, UPDATED)
        case None => None
        case Some(s2) =>
          var age := ReadInt(s2);
          if age.rest == ORDER then Some(Overdue(project, assignee, statuses.value, age.value)) else None
  }

  lemma {:induction false} LiteralRoundTrip(v: string, rest: string)
    ensures ReadLiteral(Escape(v) + ("\"" + rest)) == Some(Parsed(v, rest))
  {
    var tail := "\"" + rest;
    if v == "" {
      assert Escape(v) + tail == tail && tail[1..] == rest;
    } else {
      LiteralRoundTrip(v[1..], rest);
      EscapedFirst(v[0], Escape(v[1..]) + tail);
      ConcatShift(if v[0] == '\\' || v[0] == '"' then ['\\', v[0]] else [v[0]], Escape(v[1..]), tail);
      assert [v[0]] + v[1..] == v;
    }
  }

  lemma ConcatShift(a: string, b: string, c: string)
    ensures (a + b) + c == a + (b + c)
  {
  }

  /** Reading one escaped character. */
  lemma EscapedFirst(c: char, tail: string)
    ensures ReadLiteral((if c == '\\' || c == '"' then ['\\', c] else [c]) + tail) ==
      match ReadLiteral(tail)
      case None => None
      case Some(p) => Some(Parsed([c] + p.value, p.rest))
  {
    var text := (if c == '\\' || c == '"' then ['\\', c] else [c]) + tail;
    if c == '\\' || c == '"' {
      assert text[0] == '\\' && text[1] == c && text[2..] == tail;
    } else {
      assert text[0] == c && text[1..] == tail;
    }
  }

  lemma QuotedRoundTrip(v: string, rest: string)
    ensures ReadQuoted(JqlQuote(v) + rest) == Some(Parsed(v, rest))
  {
    SequentialReplacementsEscape(v);
    LiteralRoundTrip(v, rest);
    assert JqlQuote(v) + rest == "\"" + (Escape(v) + ("\"" + rest));
    assert (JqlQuote(v) + rest)[1..] == Escape(v) + ("\"" + rest);
  }

  /** The list after its first literal. */
  function Rest(ss: seq<string>): string {
    if ss == [] then "" else ", " + (JqlQuote(ss[0]) + Rest(ss[1..]))
  }

  lemma {:induction false} JoinIsRest(ss: seq<string>)
    requires ss != []
    ensures Join(Quoted(ss), ", ") == JqlQuote(ss[0]) + Rest(ss[1..])
  {
    if |ss| == 1 {
      assert Rest(ss[1..]) == "";
    } else {
      var front, last := ss[..|ss| - 1], ss[|ss| - 1];
      JoinIsRest(front);
      assert Quoted(ss)[..|ss| - 1] == Quoted(front);
      RestAppend(front[1..], last);
      assert front[1..] + [last] == ss[1..];
      Regroup(JqlQuote(ss[0]), Rest(front[1..]), ", ", JqlQuote(last));
    }
  }

  lemma Regroup(a: string, b: string, c: string, d: string)
    ensures (a + b) + c + d == a + (b + (c + d))
  {
  }

  lemma {:induction false} RestAppend(ss: seq<string>, s: string)
    ensures Rest(ss + [s]) == Rest(ss) + (", " + JqlQuote(s))
  {
    if ss == [] {
      assert ([s])[1..] == [];
      assert ss + [s] == [s];
    } else {
      assert (ss + [s])[1..] == ss[1..] + [s];
      RestAppend(ss[1..], s);
    }
  }

  lemma {:induction false} MoreRoundTrip(ss: seq<string>, rest: string, fuel: nat)
    requires fuel >= |ss| && !(", " <= rest)
    ensures ReadMore(Rest(ss) + rest, fuel) == Some(Parsed(ss, rest))
  {
    if ss == [] {
      assert Rest(ss) + rest == rest;
    } else {
      MoreRoundTrip(ss[1..], rest, fuel - 1);
      OneMore(ss[0], ss[1..], rest, fuel);
      assert [ss[0]] + ss[1..] == ss;
      Shift(", ", JqlQuote(ss[0]), Rest(ss[1..]), rest);
    }
  }

  lemma Shift(a: string, b: string, c: string, d: string)
    ensures (a + (b + c)) + d == a + (b + (c + d))
  {
  }

  lemma OneMore(s: string, ss: seq<string>, rest: string, fuel: nat)
    requires fuel > 0 && ReadMore(Rest(ss) + rest, fuel - 1) == Some(Parsed(ss, rest))
    ensures ReadMore(", " + (JqlQuote(s) + (Rest(ss) + rest)), fuel) == Some(Parsed([s] + ss, rest))
  {
    var tail := Rest(ss) + rest;
    var text := ", " + (JqlQuote(s) + tail);
    assert text[2..] == JqlQuote(s) + tail;
    QuotedRoundTrip(s, tail);
  }

  lemma {:induction false} RestLength(ss: seq<string>)
    ensures |Rest(ss)| >= |ss|
  {
    if ss != [] { RestLength(ss[1..]); }
  }

  lemma ListRoundTrip(ss: seq<string>, rest: string)
    requires !(", " <= rest) && !("\"" <= rest)
    ensures ReadList(Join(Quoted(ss), ", ") + rest) == Some(Parsed(ss, rest))
  {
    if ss == [] {
      assert Join(Quoted(ss), ", ") + rest == rest;
    } else {
      JoinIsRest(ss);
      var tail := Rest(ss[1..]) + rest;
      assert Join(Quoted(ss), ", ") + rest == JqlQuote(ss[0]) + tail;
      QuotedRoundTrip(ss[0], tail);
      RestLength(ss[1..]);
      MoreRoundTrip(ss[1..], rest, |tail|);
      assert [ss[0]] + ss[1..] == ss;
    }
  }

  lemma {:induction false} DigitsRoundTrip(n: nat, rest: string)
    ensures ReadDigits(Digits(n) + rest, 0) == ReadDigits(rest, n)
    ensures Digits(n) != "" && IsDigit(Digits(n)[0])
  {
    if n < 10 {
      assert (Digits(n) + rest)[1..] == rest;
    } else {
      var last := [Digit(n % 10)] + rest;
      DigitsRoundTrip(n / 10, last);
      assert Digits(n) + rest == Digits(n / 10) + last;
      assert last[1..] == rest;
    }
  }

  lemma IntRoundTrip(n: int, rest: string)
    requires rest != "" && !IsDigit(rest[0])
    ensures ReadInt(Decimal(n) + rest) == Parsed(n, rest)
  {
    if n < 0 {
      DigitsRoundTrip(-n, rest);
      DropDash(Digits(-n), rest);
    } else {
      DigitsRoundTrip(n, rest);
      FirstDigit(Digits(n), rest);
    }
  }

  lemma DropDash(digits: string, rest: string)
    ensures ("-" + digits) + rest != "" && (("-" + digits) + rest)[0] == '-' && (("-" + digits) + rest)[1..] == digits + rest
  {
  }

  lemma FirstDigit(digits: string, rest: string)
    requires digits != "" && IsDigit(digits[0])
    ensures digits + rest != "" && (digits + rest)[0] != '-'
  {
  }

  lemma ExpectRoundTrip(prefix: string, rest: string)
    ensures Expect(prefix + rest, prefix) == Some(rest)
  {
    assert (prefix + rest)[|prefix|..] == rest;
  }

  /** For arbitrary strings and any age, a reader of quoted literals recovers every part of the composed query. */
  lemma QueryRoundTrip(project: string, assignee: string, statuses: seq<string>, ageDays: int)
    ensures Read(Query(project, assignee, statuses, ageDays)) == Some(Overdue(project, assignee, statuses, ageDays))
  {
    var t4 := UPDATED + (Decimal(ageDays) + ORDER);
    var t3 := STATUS + (Join(Quoted(statuses), ", ") + t4);
    var t2 := ASSIGNEE + (JqlQuote(assignee) + t3);
    ExpectRoundTrip(PROJECT, JqlQuote(project) + t2);
    QuotedRoundTrip(project, t2);
    ExpectRoundTrip(ASSIGNEE, JqlQuote(assignee) + t3);
    QuotedRoundTrip(assignee, t3);
    TailRoundTrip(project, assignee, statuses, ageDays);
  }

  lemma TailRoundTrip(project: string, assignee: string, statuses: seq<string>, ageDays: int)
    ensures ReadTail(project, assignee, STATUS + (Join(Quoted(statuses), ", ") + (UPDATED + (Decimal(ageDays) + ORDER))))
      == Some(Overdue(project, assignee, statuses, ageDays))
  {
    var t4 := UPDATED + (Decimal(ageDays) + ORDER);
    assert t4[0] == ')';
    ExpectRoundTrip(STATUS, Join(Quoted(statuses), ", ") + t4);
    ListRoundTrip(statuses, t4);
    ExpectRoundTrip(UPDATED, Decimal(ageDays) + ORDER);
    IntRoundTrip(ageDays, ORDER);
  }

  /** Two queries are equal only if all their parts are: no input can pass for another. */
  lemma CompositionIsInjective(x: Overdue, y: Overdue)
    requires Query(x.project, x.assignee, x.statuses, x.ageDays) == Query(y.project, y.assignee, y.statuses, y.ageDays)
    ensures x == y
  {
    QueryRoundTrip(x.project, x.assignee, x.statuses, x.ageDays);
    QueryRoundTrip(y.project, y.assignee, y.statuses, y.ageDays);
  }
}
