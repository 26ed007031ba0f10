/** What a rendered message looks like to its reader (core/pkg/coordinator/briefing_formatter.go, nudge_reviewer.go). */
module BriefingLayout {
  import opened Briefing

  // ---------------------------------------------------------------- escaping, rune by rune

  lemma {:induction false} EscapeConcat(s: string, t: string)
    ensures Escape(s + t) == Escape(s) + Escape(t)
  {
    if t == "" {
      assert s + t == s;
    } else {
      var front, last := t[..|t| - 1], t[|t| - 1];
      EscapeConcat(s, front);
      assert s + t == (s + front) + [last] && t == front + [last];
      EscapeLast(s + front, last);
      EscapeLast(front, last);
      JoinBelow(Escape(s), Escape(front), EscapeRune(last));
    }
  }

  /** A text is escaped piece by piece, and of its runes exactly the six mrkdwn controls are put between two zero-width
      spaces. */
  lemma EscapeIsRuneByRune(s: string, t: string, c: char)
    ensures Escape(s + [c] + t) == Escape(s) + (if c in "*_~`><" then ['\U{200B}', c, '\U{200B}'] else [c]) + Escape(t)
  {
    EscapeConcat(s + [c], t);
    EscapeLast(s, c);
    ControlIs(c);
  }

  lemma ControlIs(c: char)
    ensures Control(c) <==> c in "*_~`><"
  {
    var six := "*_~`><";
    assert six[0] == '*' && six[1] == '_' && six[2] == '~' && six[3] == '`' && six[4] == '>' && six[5] == '<';
  }

  lemma {:induction false} ControlsStay(s: string)
    ensures Controls(Escape(s)) == Controls(s)
  {
    if s != "" {
      var front, last := Escape(s[..|s| - 1]), s[|s| - 1];
      ControlsStay(s[..|s| - 1]);
      if Control(last) {
        assert Escape(s) == ((front + [ZWS]) + [last]) + [ZWS];
        ControlsLast(front, ZWS);
        ControlsLast(front + [ZWS], last);
        ControlsLast(front + [ZWS] + [last], ZWS);
      } else {
        ControlsLast(front, last);
      }
    }
  }

  lemma ControlsLast(front: string, c: char)
    ensures Controls(front + [c]) == Controls(front) + if Control(c) then 1 else 0
  {
    assert (front + [c])[..|front|] == front;
  }

  predicate Plain(s: string) { forall i :: 0 <= i < |s| ==> s[i] !in "*_~`><" }

  lemma {:induction false} PlainTexts(s: string)
    ensures Plain(s) <==> Controls(s) == 0
  {
    if s != "" {
      var front, last := s[..|s| - 1], s[|s| - 1];
      PlainTexts(front);
      ControlIs(last);
      assert Plain(s) <==> Plain(front) && last !in "*_~`><";
    }
  }

  /** Escaping twice is not escaping once, unless there was nothing to escape. */
  lemma EscapeTwice(s: string)
    ensures |Escape(Escape(s))| == |s| + 4 * Controls(s)
    ensures Escape(Escape(s)) == Escape(s) <==> Plain(s)
  {
    EscapeLength(s);
    EscapeLength(Escape(s));
    ControlsStay(s);
    PlainTexts(s);
    if Plain(s) {
      forall i | 0 <= i < |s|
        ensures !Control(s[i])
      {
        ControlIs(s[i]);
      }
      NothingToEscape(s);
    }
  }

  // ---------------------------------------------------------------- the layout, from the top down

  /** One line per bullet. */
  function Lines(bullets: seq<string>): string {
    if bullets == [] then ""
    else "• " + Escape(bullets[0]) + if |bullets| == 1 then "" else "\n" + Lines(bullets[1..])
  }

  function Block(sec: Section): string {
    (if sec.heading == "" then "" else "*" + Escape(sec.heading) + "*\n") + Lines(sec.bullets)
  }

  /** The sections below the first text, each after an empty line. */
  function Below(sections: seq<Section>): string {
    if sections == [] then "" else "\n\n" + Block(sections[0]) + Below(sections[1..])
  }

  /** The whole message: the title in bold; without one, the first section that has a text stands at the top. */
  function Layout(title: string, sections: seq<Section>): string {
    if title != "" then "*" + Escape(title) + "*" + Below(sections)
    else if sections == [] then ""
    else if Block(sections[0]) == "" then Layout("", sections[1..])
    else Block(sections[0]) + Below(sections[1..])
  }

  lemma {:induction false} LinesLast(bullets: seq<string>, last: string)
    ensures Lines(bullets + [last]) == Lines(bullets) + (if bullets == [] then "" else "\n") + ("• " + Escape(last))
  {
    if bullets == [] {
      assert (bullets + [last])[0] == last && |bullets + [last]| == 1;
    } else {
      assert (bullets + [last])[1..] == bullets[1..] + [last];
      LinesLast(bullets[1..], last);
      JoinLine("• " + Escape(bullets[0]), Lines(bullets[1..]), if |bullets| == 1 then "" else "\n", "• " + Escape(last));
    }
  }

  lemma JoinLine(head: string, rest: string, gap: string, line: string)
    ensures head + ("\n" + (rest + gap + line)) == (head + ("\n" + rest)) + gap + line
    ensures rest == gap == "" ==> head + ("\n" + (rest + gap + line)) == head + "\n" + line
  {
  }

  lemma {:induction false} BulletsAreLines(bullets: seq<string>)
    ensures BulletsText(bullets) == Lines(bullets)
  {
    if bullets != [] {
      var front, last := bullets[..|bullets| - 1], bullets[|bullets| - 1];
      BulletsAreLines(front);
      LinesLast(front, last);
      assert bullets == front + [last];
      JoinBullet(Lines(front), if |bullets| > 1 then "\n" else "", BULLET, Escape(last));
    }
  }

  lemma JoinBullet(a: string, b: string, c: string, d: string)
    ensures a + b + c + d == a + b + (c + d)
  {
  }

  lemma BlockIs(sec: Section)
    ensures HeadingText(sec.heading) + BulletsText(sec.bullets) == Block(sec)
  {
    BulletsAreLines(sec.bullets);
  }

  lemma {:induction false} BelowLast(sections: seq<Section>, last: Section)
    ensures Below(sections + [last]) == Below(sections) + ("\n\n" + Block(last))
  {
    if sections == [] {
      assert (sections + [last])[0] == last && (sections + [last])[1..] == [];
    } else {
      assert (sections + [last])[1..] == sections[1..] + [last];
      BelowLast(sections[1..], last);
      JoinBelow("\n\n" + Block(sections[0]), Below(sections[1..]), "\n\n" + Block(last));
    }
  }

  lemma JoinBelow(a: string, b: string, c: string)
    ensures a + (b + c) == (a + b) + c
  {
  }

  /** One more section at the end. */
  lemma {:induction false} LayoutLast(title: string, sections: seq<Section>, last: Section)
    ensures Layout(title, sections + [last])
      == Layout(title, sections) + (if Layout(title, sections) != "" then "\n\n" else "") + Block(last)
    decreases |sections|
  {
    var longer := sections + [last];
    if title != "" {
      BelowLast(sections, last);
      JoinBelow("*" + Escape(title) + "*", Below(sections), "\n\n" + Block(last));
    } else if sections == [] {
      assert longer[0] == last && longer[1..] == [];
    } else {
      assert longer[0] == sections[0] && longer[1..] == sections[1..] + [last];
      if Block(sections[0]) == "" {
        LayoutLast("", sections[1..], last);
      } else {
        BelowLast(sections[1..], last);
        JoinBelow(Block(sections[0]), Below(sections[1..]), "\n\n" + Block(last));
      }
    }
  }

  lemma BriefingLast(title: string, front: seq<Section>, last: Section)
    ensures BriefingText(title, front + [last])
      == BriefingText(title, front) + (if BriefingText(title, front) != "" then "\n\n" else "") + Block(last)
  {
    var sections, before := front + [last], BriefingText(title, front);
    var gap := if before != "" then "\n\n" else "";
    assert sections[..|sections| - 1] == front && sections[|sections| - 1] == last;
    assert BriefingText(title, sections) == before + gap + HeadingText(last.heading) + BulletsText(last.bullets);
    JoinBullet(before, gap, HeadingText(last.heading), BulletsText(last.bullets));
    BlockIs(last);
  }

  /** What the formatter writes, section by section and bullet by bullet, is this layout. */
  lemma {:induction false} BriefingIsLaidOut(title: string, sections: seq<Section>)
    ensures BriefingText(title, sections) == Layout(title, sections)
  {
    if sections != [] {
      var front, last := sections[..|sections| - 1], sections[|sections| - 1];
      assert sections == front + [last];
      BriefingIsLaidOut(title, front);
      BriefingLast(title, front, last);
      LayoutLast(title, front, last);
    }
  }

  // ---------------------------------------------------------------- arguments of a nudge

  /** Which arguments a nudge takes, and the first thing wrong with one that it does not take. */
  lemma NudgeArguments(arg: Arg)
    ensures ReadReviewer(arg).Accepted? <==>
      arg.Text? && |arg.text| >= 3 && arg.text[0] in "UWB"
      && forall i :: 1 <= i < |arg.text| ==> 'A' <= arg.text[i] <= 'Z' || '0' <= arg.text[i] <= '9'
    ensures ReadNudgeText(arg).Accepted? <==> arg.Text? && 0 < |arg.text| <= 2000
    ensures ReadNudgeTitle(arg).Accepted? <==> arg.Absent? || (arg.Text? && |arg.text| <= 200)
    ensures ReadReviewer(arg) == Refused(Missing) <==> arg.Absent?
    ensures ReadNudgeText(arg) == Refused(Missing) <==> arg.Absent?
    ensures ReadReviewer(arg) == Refused(NotText) <==> arg.NotAString?
    ensures ReadNudgeText(arg) == Refused(NotText) <==> arg.NotAString?
    ensures ReadNudgeTitle(arg) == Refused(NotText) <==> arg.NotAString?
    ensures ReadReviewer(arg) == Refused(Empty) <==> arg == Text("")
    ensures ReadNudgeText(arg) == Refused(Empty) <==> arg == Text("")
    ensures ReadNudgeText(arg) == Refused(TooLong) <==> arg.Text? && |arg.text| > 2000
    ensures ReadNudgeTitle(arg) == Refused(TooLong) <==> arg.Text? && |arg.text| > 200
    ensures ReadNudgeText(arg).Accepted? ==> ReadNudgeText(arg).value == arg.text
    ensures ReadNudgeTitle(arg).Accepted? ==> ReadNudgeTitle(arg).value == if arg.Text? then arg.text else ""
  {
    if arg.Text? && |arg.text| >= 3 {
      var kinds := "UWB";
      assert kinds[0] == 'U' && kinds[1] == 'W' && kinds[2] == 'B';
    }
  }
}
