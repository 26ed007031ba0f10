/**
 Slack-mrkdwn rendering (core/pkg/coordinator/briefing_formatter.go) and the nudges that rely on its length
 (core/pkg/coordinator/nudge_reviewer.go).  Strings are sequences of runes.
 */
module Briefing {
  import opened Options

  const ZWS: char := '\U{200B}'

  predicate Control(c: char) {
    c == '*' || c == '_' || c == '~' || c == '`' || c == '>' || c == '<'
  }

  // ---------------------------------------------------------------- escaping

  function EscapeRune(c: char): string {
    if Control(c) then [ZWS, c, ZWS] else [c]
  }

  function Escape(s: string): string {
    if s == "" then "" else Escape(s[..|s| - 1]) + EscapeRune(s[|s| - 1])
  }

  function Controls(s: string): nat {
    if s == "" then 0 else Controls(s[..|s| - 1]) + if Control(s[|s| - 1]) then 1 else 0
  }

  /** Takes the sandwiches away; zero-width spaces that belong to none stay. */
  function Unescape(e: string): string {
    if e == "" then ""
    else if |e| >= 3 && e[0] == ZWS && Control(e[1]) && e[2] == ZWS then [e[1]] + Unescape(e[3..])
    else [e[0]] + Unescape(e[1..])
  }

  lemma EscapeLast(front: string, c: char)
    ensures Escape(front + [c]) == Escape(front) + EscapeRune(c)
  {
    assert (front + [c])[..|front|] == front;
  }

  lemma {:induction false} EscapeFront(c: char, s: string)
    ensures Escape([c] + s) == EscapeRune(c) + Escape(s)
  {
    if s == "" {
      EscapeLast("", c);
      assert "" + [c] == [c] + s;
    } else {
      var front, last := s[..|s| - 1], s[|s| - 1];
      assert s == front + [last];
      EscapeFront(c, front);
      EscapeLast(front, last);
      EscapeLast([c] + front, last);
      assert [c] + (front + [last]) == ([c] + front) + [last];
      Associate(EscapeRune(c), Escape(front), EscapeRune(last));
    }
  }

  lemma Associate(a: string, b: string, c: string)
    ensures (a + b) + c == a + (b + c)
  {
  }

  /** Escaping loses nothing, whatever the text: control characters, and zero-width spaces that were there before. */
  lemma {:induction false} EscapeRoundTrip(s: string)
    ensures Unescape(Escape(s)) == s
  {
    if s != "" {
      var rest := s[1..];
      assert s == [s[0]] + rest;
      EscapeFront(s[0], rest);
      EscapeRoundTrip(rest);
      StepBack(s[0], Escape(rest));
      NoBareStart(rest);
    }
  }

  /** What follows an escaped rune never starts with a bare control character. */
  lemma {:induction false} NoBareStart(s: string)
    ensures Escape(s) != "" ==> !Control(Escape(s)[0])
  {
    if s != "" {
      assert s == [s[0]] + s[1..];
      EscapeFront(s[0], s[1..]);
    }
  }

  lemma StepBack(c: char, tail: string)
    ensures tail == "" || !Control(tail[0]) ==> Unescape(EscapeRune(c) + tail) == [c] + Unescape(tail)
  {
    var text := EscapeRune(c) + tail;
    if Control(c) {
      assert text[3..] == tail;
    } else {
      assert text[1..] == tail;
    }
  }

  /** Two runes per control character. */
  lemma {:induction false} EscapeLength(s: string)
    ensures |Escape(s)| == |s| + 2 * Controls(s) && Controls(s) <= |s|
  {
    if s != "" { EscapeLength(s[..|s| - 1]); }
  }

  lemma {:induction false} NothingToEscape(s: string)
    requires forall i :: 0 <= i < |s| ==> !Control(s[i])
    ensures Escape(s) == s && Controls(s) == 0
  {
    if s != "" { NothingToEscape(s[..|s| - 1]); }
  }

  /** No control character of the text reaches Slack outside its sandwich. */
  lemma {:induction false} EveryControlIsWrapped(s: string, i: nat)
    requires i < |Escape(s)| && Control(Escape(s)[i])
    ensures 0 < i < |Escape(s)| - 1 && Escape(s)[i - 1] == ZWS && Escape(s)[i + 1] == ZWS
  {
    var front := Escape(s[..|s| - 1]);
    if i < |front| { EveryControlIsWrapped(s[..|s| - 1], i); }
  }

  predicate ContainsControl(s: string) { exists i :: 0 <= i < |s| && Control(s[i]) }

  method EscapeMrkdwn(s: string) returns (out: string)
    ensures out == Escape(s)
  {
    if !ContainsControl(s) {
      NothingToEscape(s);
      return s;
    }
    out := "";
    for i := 0 to |s|
      invariant out == Escape(s[..i])
    {
      assert s[..i + 1][..i] == s[..i];
      if Control(s[i]) {
        out := out + [ZWS] + [s[i]] + [ZWS];
      } else {
        out := out + [s[i]];
      }
    }
    assert s[..|s|] == s;
  }

  method RuneLen(s: string) returns (n: nat)
    ensures n == |s|
  {
    n := 0;
    for i := 0 to |s|
      invariant n == i
    {
      n := n + 1;
    }
  }

  // ---------------------------------------------------------------- the briefing

  datatype Section = Section(heading: string, bullets: seq<string>)

  const BULLET := "• "

  function TitleText(title: string): string {
    if title == "" then "" else "*" + Escape(title) + "*"
  }

  function HeadingText(heading: string): string {
    if heading == "" then "" else "*" + Escape(heading) + "*\n"
  }

  function BulletsText(bullets: seq<string>): string {
    if bullets == [] then ""
    else
      BulletsText(bullets[..|bullets| - 1]) + (if |bullets| > 1 then "\n" else "") + BULLET
      + Escape(bullets[|bullets| - 1])
  }

  /** Sections are set apart by an empty line, but nothing stands before the first text. */
  function BriefingText(title: string, sections: seq<Section>): string {
    if sections == [] then TitleText(title)
    else
      var before := BriefingText(title, sections[..|sections| - 1]);
      var last := sections[|sections| - 1];
      before + (if before != "" then "\n\n" else "") + HeadingText(last.heading) + BulletsText(last.bullets)
  }

  lemma BulletStep(before: string, bullets: seq<string>, i: nat)
    requires i < |bullets|
    ensures before + BulletsText(bullets[..i + 1])
      == before + BulletsText(bullets[..i]) + (if i > 0 then "\n" else "") + BULLET + Escape(bullets[i])
  {
    assert bullets[..i + 1][..i] == bullets[..i];
  }

  /** The loop over the bullets of one section. */
  method WriteBullets(before: string, bullets: seq<string>) returns (out: string)
    ensures out == before + BulletsText(bullets)
  {
    out := before;
    for i := 0 to |bullets|
      invariant out == before + BulletsText(bullets[..i])
    {
      BulletStep(before, bullets, i);
      if i > 0 {
        out := out + "\n";
      }
      out := out + BULLET;
      var escaped := EscapeMrkdwn(bullets[i]);
      out := out + escaped;
    }
    assert bullets[..|bullets|] == bullets;
  }

  lemma SectionStep(title: string, sections: seq<Section>, k: nat, separated: string, headed: string)
    requires k < |sections|
    requires var before := BriefingText(title, sections[..k]);
      separated == if before != "" then before + "\n\n" else before
    requires headed ==
      if sections[k].heading != "" then separated + ("*" + Escape(sections[k].heading) + "*\n") else separated
    ensures BriefingText(title, sections[..k + 1]) == headed + BulletsText(sections[k].bullets)
  {
    assert sections[..k + 1][..k] == sections[..k];
    HeadedSection(BriefingText(title, sections[..k]), sections[k].heading, separated, headed);
  }

  lemma HeadedSection(before: string, heading: string, separated: string, headed: string)
    requires separated == if before != "" then before + "\n\n" else before
    requires headed == if heading != "" then separated + ("*" + Escape(heading) + "*\n") else separated
    ensures headed == before + (if before != "" then "\n\n" else "") + HeadingText(heading)
  {
    assert separated == before + (if before != "" then "\n\n" else "");
    assert headed == separated + HeadingText(heading);
  }

  method FormatBriefing(title: string, sections: seq<Section>) returns (out: string, chars: nat)
    ensures out == BriefingText(title, sections) && chars == |out|
  {
    out := "";
    if title != "" {
      var escaped := EscapeMrkdwn(title);
      out := "*" + escaped + "*";
    }
    assert sections[..0] == [];
    for k := 0 to |sections|
      invariant out == BriefingText(title, sections[..k])
    {
      var sec := sections[k];
      if |out| > 0 {
        out := out + "\n\n";
      }
      ghost var separated := out;
      if sec.heading != "" {
        var escaped := EscapeMrkdwn(sec.heading);
        out := out + ("*" + escaped + "*\n");
      }
      SectionStep(title, sections, k, separated, out);
      out := WriteBullets(out, sec.bullets);
    }
    assert sections[..|sections|] == sections;
    chars := RuneLen(out);
  }

  // ---------------------------------------------------------------- nudges

  const MAX_NUDGE_TEXT_CHARS := 2000
  const MAX_NUDGE_TITLE_CHARS := 200
  const MAX_NUDGE_RENDERED := 6606

  /** A tool-call argument as it arrives. */
  datatype Arg = Absent | NotAString | Text(text: string)

  datatype Problem = Missing | NotText | Empty | BadShape | TooLong

  /** A refusal does not hold the value it refuses. */
  datatype Read = Accepted(value: string) | Refused(why: Problem)

  /** A Slack user id: U, W or B and at least two more capitals or digits. */
  predicate UserId(s: string) {
    && |s| >= 3 && (s[0] == 'U' || s[0] == 'W' || s[0] == 'B')
    && forall i :: 1 <= i < |s| ==> 'A' <= s[i] <= 'Z' || '0' <= s[i] <= '9'
  }

  function ReadReviewer(arg: Arg): Read {
    match arg
    case Absent => Refused(Missing)
    case NotAString => Refused(NotText)
    case Text(s) => if s == "" then Refused(Empty) else if !UserId(s) then Refused(BadShape) else Accepted(s)
  }

  function ReadNudgeText(arg: Arg): Read {
    match arg
    case Absent => Refused(Missing)
    case NotAString => Refused(NotText)
    case Text(s) =>
      if s == "" then Refused(Empty) else if |s| > MAX_NUDGE_TEXT_CHARS then Refused(TooLong) else Accepted(s)
  }

  function ReadNudgeTitle(arg: Arg): Read {
    match arg
    case Absent => Accepted("")
    case NotAString => Refused(NotText)
    case Text(s) => if |s| > MAX_NUDGE_TITLE_CHARS then Refused(TooLong) else Accepted(s)
  }

  function NudgeText(title: string, text: string): string {
    BriefingText(title, [Section("", [text])])
  }

  /** The length of a rendered nudge, exactly. */
  lemma NudgeLength(title: string, text: string)
    ensures |NudgeText(title, text)|
      == |text| + 2 * Controls(text) + 2 + if title == "" then 0 else |title| + 2 * Controls(title) + 4
  {
    var sections := [Section("", [text])];
    assert sections[..0] == [] && sections[0].bullets[..0] == [];
    assert BriefingText(title, sections[..0]) == TitleText(title);
    EscapeLength(text);
    EscapeLength(title);
    assert |BulletsText([text])| == 2 + |Escape(text)|;
  }

  /** The handler sends what it renders without a further check: no accepted nudge exceeds 6606 runes. */
  lemma AcceptedNudgesAreBounded(textArg: Arg, titleArg: Arg)
    requires ReadNudgeText(textArg).Accepted? && ReadNudgeTitle(titleArg).Accepted?
    ensures 3 <= |NudgeText(ReadNudgeTitle(titleArg).value, ReadNudgeText(textArg).value)| <= MAX_NUDGE_RENDERED
  {
    BoundedByArguments(ReadNudgeTitle(titleArg).value, ReadNudgeText(textArg).value);
  }

  lemma BoundedByArguments(title: string, text: string)
    requires 0 < |text| <= MAX_NUDGE_TEXT_CHARS && |title| <= MAX_NUDGE_TITLE_CHARS
    ensures 3 <= |NudgeText(title, text)| <= MAX_NUDGE_RENDERED
  {
    NudgeLength(title, text);
    EscapeLength(title);
    EscapeLength(text);
  }

  /** The bound is attained. */
  lemma TheBoundIsTight()
    ensures exists text: string, title: string ::
      && ReadNudgeText(Text(text)) == Accepted(text) && ReadNudgeTitle(Text(title)) == Accepted(title)
      && |NudgeText(title, text)| == MAX_NUDGE_RENDERED
  {
    var text, title := seq(MAX_NUDGE_TEXT_CHARS, i => '*'), seq(MAX_NUDGE_TITLE_CHARS, i => '<');
    AllControls(text);
    AllControls(title);
    NudgeLength(title, text);
    assert ReadNudgeText(Text(text)) == Accepted(text) && ReadNudgeTitle(Text(title)) == Accepted(title);
  }

  lemma {:induction false} AllControls(s: string)
    requires forall i :: 0 <= i < |s| ==> Control(s[i])
    ensures Controls(s) == |s|
  {
    if s != "" { AllControls(s[..|s| - 1]); }
  }

  /** The text cap is checked before escaping; after it, it holds exactly when the control characters leave room. */
  lemma CapHoldsAfterEscapingIff(text: string)
    ensures |Escape(text)| <= MAX_NUDGE_TEXT_CHARS <==> |text| + 2 * Controls(text) <= MAX_NUDGE_TEXT_CHARS
    ensures exists s: string :: ReadNudgeText(Text(s)) == Accepted(s) && |Escape(s)| > MAX_NUDGE_TEXT_CHARS
  {
    EscapeLength(text);
    var s := seq(MAX_NUDGE_TEXT_CHARS, i => '*');
    AllControls(s);
    EscapeLength(s);
    assert ReadNudgeText(Text(s)) == Accepted(s);
  }

  datatype Argument = ReviewerArg | TextArg | TitleArg

  datatype NudgeResult =
    | Cancelled
    | RefusedFor(arg: Argument, why: Problem)
    | SendFailed
    | Nudged(stamp: string, chars: nat, titled: bool)

  /** A message handed to the messenger. */
  datatype Post = Post(channel: string, text: string)

  predicate AllAccepted(reviewerArg: Arg, textArg: Arg, titleArg: Arg) {
    ReadReviewer(reviewerArg).Accepted? && ReadNudgeText(textArg).Accepted? && ReadNudgeTitle(titleArg).Accepted?
  }

  /** The first argument refused, in the order reviewer, text, title. */
  predicate FirstRefusal(reviewerArg: Arg, textArg: Arg, titleArg: Arg, arg: Argument, why: Problem) {
    match arg
    case ReviewerArg => ReadReviewer(reviewerArg) == Refused(why)
    case TextArg => ReadReviewer(reviewerArg).Accepted? && ReadNudgeText(textArg) == Refused(why)
    case TitleArg =>
      ReadReviewer(reviewerArg).Accepted? && ReadNudgeText(textArg).Accepted? && ReadNudgeTitle(titleArg) == Refused(why)
  }

  /** The nudge handler.  `alive` is the context at entry and `send` the messenger: the stamp it assigns, or its error.
      A message goes out exactly when the context is alive and every argument is accepted, and then to the reviewer. */
  method NudgeReviewer(alive: bool, reviewerArg: Arg, textArg: Arg, titleArg: Arg, send: Post -> Option<string>)
    returns (result: NudgeResult, post: Option<Post>)
    ensures post.Some? <==> alive && AllAccepted(reviewerArg, textArg, titleArg)
    ensures post.Some? ==>
      && Text(post.value.channel) == reviewerArg && UserId(post.value.channel)
      && post.value.text == NudgeText(ReadNudgeTitle(titleArg).value, ReadNudgeText(textArg).value)
      && |post.value.text| <= MAX_NUDGE_RENDERED
    ensures result.Cancelled? <==> !alive
    ensures result.RefusedFor? <==> alive && post.None?
    ensures result.RefusedFor? ==> FirstRefusal(reviewerArg, textArg, titleArg, result.arg, result.why)
    ensures result.SendFailed? <==> post.Some? && send(post.value) == None
    ensures result.Nudged? ==>
      && post.Some? && send(post.value) == Some(result.stamp) && result.chars == |post.value.text|
      && result.titled == (ReadNudgeTitle(titleArg).value != "")
  {
    if !alive {
      return Cancelled, None;
    }
    var reviewer := ReadReviewer(reviewerArg);
    if reviewer.Refused? {
      return RefusedFor(ReviewerArg, reviewer.why), None;
    }
    var text := ReadNudgeText(textArg);
    if text.Refused? {
      return RefusedFor(TextArg, text.why), None;
    }
    var title := ReadNudgeTitle(titleArg);
    if title.Refused? {
      return RefusedFor(TitleArg, title.why), None;
    }
    var rendered, chars := FormatBriefing(title.value, [Section("", [text.value])]);
    AcceptedNudgesAreBounded(textArg, titleArg);
    post := Some(Post(reviewer.value, rendered));
    var stamp := send(post.value);
    if stamp.None? {
      return SendFailed, post;
    }
    result := Nudged(stamp.value, chars, title.value != "");
  }
}
