/** The transcript screen (src/screens/TranscriptScreen.tsx): the duration
    shown for a session, the plain text handed to the share sheet, and the
    message count in the header. `toLocaleTimeString` depends on the device's
    locale and time zone, so it is the `timeOf` input: the label of one
    instant. */
module Transcript {
  import opened Types
  import opened Strings

  // ---------------------------------------------------------------- duration

  const InProgress := "In progress"
  const MinuteMs := 60000
  const SecondMs := 1000

  /** `duration % 60000` in JavaScript: the remainder of division truncated
      toward zero, which takes the sign of the duration. */
  function MinuteRem(d: int): (r: int)
    ensures d >= 0 ==> 0 <= r < MinuteMs
    ensures d < 0 ==> -MinuteMs < r <= 0
    ensures (d - r) % MinuteMs == 0
  {
    if d >= 0 then d % MinuteMs else -((-d) % MinuteMs)
  }

  /** `Math.floor(duration / 60000)`; Dafny's `/` by a positive divisor is
      already the floor. */
  function Minutes(d: int): int {
    d / MinuteMs
  }

  /** `Math.floor((duration % 60000) / 1000)`. */
  function Seconds(d: int): int {
    MinuteRem(d) / SecondMs
  }

  /** `${minutes}m ${seconds}s`. */
  function DurationText(minutes: int, seconds: int): string {
    IntToString(minutes) + SecondsText(seconds)
  }

  /** `formatDuration`: an unset end time reads "In progress"; otherwise the
      elapsed milliseconds as whole minutes and the seconds left over. */
  function FormatDuration(startTime: int, endTime: Option<int>): (r: string)
    ensures endTime.None? ==> r == InProgress
    ensures endTime.Some? ==> r == DurationText(Minutes(endTime.value - startTime), Seconds(endTime.value - startTime))
  {
    if endTime.None? then InProgress else DurationText(Minutes(endTime.value - startTime), Seconds(endTime.value - startTime))
  }

  /** For a duration that is not negative, the seconds are 0 to 59, and the
      minutes and seconds together are the whole seconds elapsed. */
  lemma {:induction false} DurationSplits(d: int)
    requires d >= 0
    ensures 0 <= Seconds(d) <= 59
    ensures Minutes(d) * 60 + Seconds(d) == d / SecondMs
  {
    var q := d / MinuteMs;
    var r := d % MinuteMs;
    assert MinuteRem(d) == r;
    var s := r / SecondMs;
    var u := r % SecondMs;
    assert d == SecondMs * (q * 60 + s) + u;
  }

  /** With the end before the start (a clock set back) the seconds come out
      at or below zero, and as low as -60. */
  lemma NegativeDurationSeconds(d: int)
    requires d < 0
    ensures -60 <= Seconds(d) <= 0
  {
  }

  /** A negative duration of a second and a half is shown as minus one minute
      and minus two seconds: the minutes are floored while the remainder keeps
      the sign of the duration. */
  lemma NegativeDurationExample()
    ensures Minutes(-1500) == -1 && Seconds(-1500) == -2
    ensures DurationText(Minutes(-1500), Seconds(-1500)) == "-1m -2s"
  {
    assert NatToString(1) == "1" && NatToString(2) == "2";
  }

  /** The characters of a rendered integer: a sign and digits. */
  predicate Numeral(a: string) {
    forall i :: 0 <= i < |a| ==> a[i] == '-' || IsDigit(a[i])
  }

  lemma IntToStringIsNumeral(n: int)
    ensures Numeral(IntToString(n))
  {
    var a := IntToString(n);
    forall i | 0 <= i < |a| ensures a[i] == '-' || IsDigit(a[i]) {
      if i > 0 {
        assert IsDigit(a[i]);
      }
    }
  }

  /** The index of the first `c` in `s`, or `|s|` when there is none. */
  function IndexOf(s: string, c: char): (k: nat)
    ensures k <= |s|
    ensures k < |s| ==> s[k] == c
    ensures forall j :: 0 <= j < k ==> s[j] != c
  {
    if s == [] then 0 else if s[0] == c then 0 else 1 + IndexOf(s[1..], c)
  }

  /** No numeral holds an `m`, so the first `m` after one is where it ends. */
  lemma {:induction false} FirstMAfterNumeral(a: string, r: string)
    requires Numeral(a) && r != [] && r[0] == 'm'
    ensures IndexOf(a + r, 'm') == |a|
  {
    if a == [] {
      assert a + r == r;
    } else {
      assert (a + r)[0] == a[0];
      assert (a + r)[1..] == a[1..] + r;
      assert Numeral(a[1..]) by {
        forall i | 0 <= i < |a[1..]| ensures a[1..][i] == '-' || IsDigit(a[1..][i]) {
          assert a[1..][i] == a[i + 1];
        }
      }
      FirstMAfterNumeral(a[1..], r);
    }
  }

  /** A numeral followed by text that opens with an `m` can be cut apart in
      one way only. */
  lemma NumeralPrefix(a1: string, r1: string, a2: string, r2: string)
    requires Numeral(a1) && Numeral(a2) && a1 + r1 == a2 + r2
    requires r1 != [] && r2 != [] && r1[0] == 'm' && r2[0] == 'm'
    ensures a1 == a2 && r1 == r2
  {
    var t := a1 + r1;
    FirstMAfterNumeral(a1, r1);
    FirstMAfterNumeral(a2, r2);
    assert a1 == t[..|a1|] == a2;
    assert r1 == t[|a1|..] == r2;
  }

  lemma DurationTextParts(m: int, sec: int)
    ensures DurationText(m, sec) == IntToString(m) + SecondsText(sec)
    ensures Numeral(IntToString(m)) && SecondsText(sec)[0] == 'm'
  {
    IntToStringIsNumeral(m);
  }

  /** The text after the minutes. */
  function SecondsText(sec: int): (r: string)
    ensures |r| >= 3 && r[2..|r| - 1] == IntToString(sec)
  {
    var b := IntToString(sec);
    var r := "m " + b + "s";
    assert r[2..|r| - 1] == b;
    r
  }

  /** The rendered duration gives back the minutes and seconds. */
  lemma DurationTextInjective(m1: int, s1: int, m2: int, s2: int)
    requires DurationText(m1, s1) == DurationText(m2, s2)
    ensures m1 == m2 && s1 == s2
  {
    DurationTextParts(m1, s1);
    DurationTextParts(m2, s2);
    NumeralPrefix(IntToString(m1), SecondsText(s1), IntToString(m2), SecondsText(s2));
    IntToStringInjective(m1, m2);
    IntToStringInjective(s1, s2);
  }

  /** "In progress" is never a rendered duration, so the two cases of
      `formatDuration` are told apart by the text alone. */
  lemma InProgressIffNoEnd(startTime: int, endTime: Option<int>)
    ensures FormatDuration(startTime, endTime) == InProgress <==> endTime.None?
  {
    if endTime.Some? {
      var d := endTime.value - startTime;
      var a := IntToString(Minutes(d));
      assert FormatDuration(startTime, endTime)[0] == a[0];
      assert InProgress[0] == 'I';
    }
  }

  // ---------------------------------------------------------------- share text

  /** `msg.sender === 'user' ? 'You' : 'AI'`. */
  function SenderLabel(sender: MessageSender): (text: string)
    ensures text == "You" <==> sender == User
    ensures text == "AI" <==> sender != User
  {
    if sender == User then "You" else "AI"
  }

  /** `[${time}] ${sender}:\n${msg.content}\n`. */
  function Block(m: DebateMessage, time: string): string {
    "[" + time + "] " + SenderLabel(m.sender) + ":\n" + m.content + "\n"
  }

  /** A block shows the time at index 1, the sender after the time, and the
      content after the sender, and ends with a newline. */
  lemma BlockLayout(m: DebateMessage, time: string)
    ensures OccursAt(Block(m, time), time, 1)
    ensures OccursAt(Block(m, time), SenderLabel(m.sender), |time| + 3)
    ensures OccursAt(Block(m, time), m.content, |time| + |SenderLabel(m.sender)| + 5)
    ensures EndsWith(Block(m, time), "\n")
  {
    var b := Block(m, time);
    var name := SenderLabel(m.sender);
    var k := |time| + |name| + 5;
    assert b == "[" + time + "] " + name + ":\n" + m.content + "\n";
    assert b[1..1 + |time|] == time;
    assert b[|time| + 3..|time| + 3 + |name|] == name;
    assert b[k..k + |m.content|] == m.content;
  }

  /** One block per message, in stored order. */
  function Blocks(ms: seq<DebateMessage>, timeOf: int -> string): (r: seq<string>)
    ensures |r| == |ms|
    ensures forall i :: 0 <= i < |ms| ==> r[i] == Block(ms[i], timeOf(ms[i].timestamp))
  {
    if ms == [] then [] else [Block(ms[0], timeOf(ms[0].timestamp))] + Blocks(ms[1..], timeOf)
  }

  /** `Array.prototype.join(sep)` on strings. */
  function Join(parts: seq<string>, sep: string): string {
    if parts == [] then ""
    else if |parts| == 1 then parts[0]
    else parts[0] + sep + Join(parts[1..], sep)
  }

  /** Where the `i`-th part starts in the joined text: every earlier part and
      its separator come first. */
  function PartStart(parts: seq<string>, sep: string, i: nat): nat
    requires i <= |parts|
  {
    if i == 0 then 0 else PartStart(parts, sep, i - 1) + |parts[i - 1]| + |sep|
  }

  lemma {:induction false} PartStartTail(parts: seq<string>, sep: string, i: nat)
    requires 1 <= i <= |parts|
    ensures PartStart(parts, sep, i) == |parts[0]| + |sep| + PartStart(parts[1..], sep, i - 1)
  {
    if i > 1 {
      PartStartTail(parts, sep, i - 1);
      assert parts[i - 1] == parts[1..][i - 2];
    }
  }

  /** Every part appears in the joined text at its start position, so the
      parts appear in order and none overlaps the next. */
  lemma {:induction false} JoinHasPartAt(parts: seq<string>, sep: string, i: nat)
    requires i < |parts|
    ensures OccursAt(Join(parts, sep), parts[i], PartStart(parts, sep, i))
  {
    if i == 0 {
      if |parts| > 1 {
        assert Join(parts, sep) == parts[0] + (sep + Join(parts[1..], sep));
      }
    } else {
      var j := Join(parts, sep);
      var rest := Join(parts[1..], sep);
      var off := |parts[0]| + |sep|;
      assert j == parts[0] + sep + rest;
      JoinHasPartAt(parts[1..], sep, i - 1);
      PartStartTail(parts, sep, i);
      var k := PartStart(parts[1..], sep, i - 1);
      assert parts[1..][i - 1] == parts[i];
      assert j[off + k..off + k + |parts[i]|] == rest[k..k + |parts[i]|];
    }
  }

  /** Adding a part after at least one other adds the separator and the part
      at the end and leaves the earlier text alone. */
  lemma {:induction false} JoinSnoc(parts: seq<string>, p: string, sep: string)
    requires parts != []
    ensures Join(parts + [p], sep) == Join(parts, sep) + sep + p
  {
    if |parts| == 1 {
      assert (parts + [p])[1..] == [p];
    } else {
      assert (parts + [p])[1..] == parts[1..] + [p];
      JoinSnoc(parts[1..], p, sep);
    }
  }

  /** The transcript body of the share text. */
  function ShareBody(ms: seq<DebateMessage>, timeOf: int -> string): string {
    Join(Blocks(ms, timeOf), "\n")
  }

  /** A message said after the others adds its block at the end of the body,
      after one blank separator line. */
  lemma ShareBodySnoc(ms: seq<DebateMessage>, m: DebateMessage, timeOf: int -> string)
    requires ms != []
    ensures ShareBody(ms + [m], timeOf) == ShareBody(ms, timeOf) + "\n" + Block(m, timeOf(m.timestamp))
  {
    assert Blocks(ms + [m], timeOf) == Blocks(ms, timeOf) + [Block(m, timeOf(m.timestamp))];
    JoinSnoc(Blocks(ms, timeOf), Block(m, timeOf(m.timestamp)), "\n");
  }

  /** Each message's block appears in the body, at a position that grows
      with the message's index. */
  lemma ShareBodyInOrder(ms: seq<DebateMessage>, timeOf: int -> string, i: nat)
    requires i < |ms|
    ensures OccursAt(ShareBody(ms, timeOf), Block(ms[i], timeOf(ms[i].timestamp)), PartStart(Blocks(ms, timeOf), "\n", i))
    ensures i + 1 < |ms| ==>
      PartStart(Blocks(ms, timeOf), "\n", i) + |Block(ms[i], timeOf(ms[i].timestamp))|
        < PartStart(Blocks(ms, timeOf), "\n", i + 1)
  {
    JoinHasPartAt(Blocks(ms, timeOf), "\n", i);
  }

  const ShareIntro := "DebateSim Transcript\n\nTopic: "

  const UserSideLabel := "\nYour position: "
  const AiSideLabel := "\nAI position: "
  const DurationLabel := "\nDuration: "

  /** The header lines after the topic: both positions and the duration. */
  function HeaderDetails(s: DebateSession): string {
    UserSideLabel + SideText(s.userSide) + AiSideLabel + SideText(s.aiSide)
      + DurationLabel + FormatDuration(s.startTime, s.endTime) + "\n\n"
  }

  /** Where the header places the human's side, the AI's side and the duration. */
  function UserSideAt(s: DebateSession): nat {
    |ShareIntro| + |s.topic| + |UserSideLabel|
  }

  function AiSideAt(s: DebateSession): nat {
    UserSideAt(s) + |SideText(s.userSide)| + |AiSideLabel|
  }

  function DurationAt(s: DebateSession): nat {
    AiSideAt(s) + |SideText(s.aiSide)| + |DurationLabel|
  }

  /** The lines above the transcript body: topic, positions and duration. */
  function ShareHeader(s: DebateSession): string {
    ShareIntro + s.topic + HeaderDetails(s)
  }

  /** The `message` handed to `Share.share`. */
  function ShareContent(s: DebateSession, timeOf: int -> string): string {
    ShareHeader(s) + ShareBody(s.messages, timeOf)
  }

  /** The share text opens with the fixed title and names the topic right
      after it; the human's side, the AI's side and the duration follow, each
      after its label; the header ends before the transcript body, which
      closes the text. */
  lemma ShareContentLayout(s: DebateSession, timeOf: int -> string)
    ensures StartsWith(ShareContent(s, timeOf), ShareIntro)
    ensures OccursAt(ShareContent(s, timeOf), s.topic, |ShareIntro|)
    ensures OccursAt(ShareContent(s, timeOf), SideText(s.userSide), UserSideAt(s))
    ensures OccursAt(ShareContent(s, timeOf), SideText(s.aiSide), AiSideAt(s))
    ensures OccursAt(ShareContent(s, timeOf), FormatDuration(s.startTime, s.endTime), DurationAt(s))
    ensures UserSideAt(s) < AiSideAt(s) < DurationAt(s)
    ensures DurationAt(s) + |FormatDuration(s.startTime, s.endTime)| < |ShareHeader(s)|
    ensures |ShareContent(s, timeOf)| == |ShareHeader(s)| + |ShareBody(s.messages, timeOf)|
    ensures EndsWith(ShareContent(s, timeOf), ShareBody(s.messages, timeOf))
  {
    var details, body := HeaderDetails(s), ShareBody(s.messages, timeOf);
    var user, ai, duration := SideText(s.userSide), SideText(s.aiSide), FormatDuration(s.startTime, s.endTime);
    var c := ShareContent(s, timeOf);
    assert details == UserSideLabel + user + AiSideLabel + ai + DurationLabel + duration + "\n\n";
    assert c == ShareIntro + s.topic + details + body;
    FourPartLayout(ShareIntro, s.topic, details, body);
    HeaderLayout(ShareIntro + s.topic, UserSideLabel, user, AiSideLabel, ai, DurationLabel, duration, "\n\n", body);
    assert |details| == |UserSideLabel| + |user| + |AiSideLabel| + |ai| + |DurationLabel| + |duration| + 2;
  }

  /** Each labelled value of a header `head + l1 + v1 + l2 + v2 + l3 + v3 + tail`
      sits right after its label. */
  lemma HeaderLayout(head: string, l1: string, v1: string, l2: string, v2: string,
                     l3: string, v3: string, tail: string, body: string)
    ensures OccursAt(head + (l1 + v1 + l2 + v2 + l3 + v3 + tail) + body, v1, |head| + |l1|)
    ensures OccursAt(head + (l1 + v1 + l2 + v2 + l3 + v3 + tail) + body, v2, |head| + |l1| + |v1| + |l2|)
    ensures OccursAt(head + (l1 + v1 + l2 + v2 + l3 + v3 + tail) + body, v3,
                     |head| + |l1| + |v1| + |l2| + |v2| + |l3|)
  {
    var d := l1 + v1 + l2 + v2 + l3 + v3 + tail;
    PieceAtEnd(l1, v1);
    Extend(l1 + v1, l2, v1, |l1|);
    Extend(l1 + v1 + l2, v2, v1, |l1|);
    Extend(l1 + v1 + l2 + v2, l3, v1, |l1|);
    Extend(l1 + v1 + l2 + v2 + l3, v3, v1, |l1|);
    Extend(l1 + v1 + l2 + v2 + l3 + v3, tail, v1, |l1|);
    PieceAtEnd(l1 + v1 + l2, v2);
    Extend(l1 + v1 + l2 + v2, l3, v2, |l1 + v1 + l2|);
    Extend(l1 + v1 + l2 + v2 + l3, v3, v2, |l1 + v1 + l2|);
    Extend(l1 + v1 + l2 + v2 + l3 + v3, tail, v2, |l1 + v1 + l2|);
    PieceAtEnd(l1 + v1 + l2 + v2 + l3, v3);
    Extend(l1 + v1 + l2 + v2 + l3 + v3, tail, v3, |l1 + v1 + l2 + v2 + l3|);
    Embed(head, d, body, v1, |l1|);
    Embed(head, d, body, v2, |l1 + v1 + l2|);
    Embed(head, d, body, v3, |l1 + v1 + l2 + v2 + l3|);
  }

  /** `q` occurs in `p + q` right after `p`. */
  lemma PieceAtEnd(p: string, q: string)
    ensures OccursAt(p + q, q, |p|)
  {
    assert (p + q)[|p|..] == q;
  }

  /** An occurrence survives appending text. */
  lemma Extend(x: string, y: string, sub: string, k: nat)
    requires OccursAt(x, sub, k)
    ensures OccursAt(x + y, sub, k)
  {
    assert (x + y)[k..k + |sub|] == x[k..k + |sub|];
  }

  /** An occurrence in `x` is shifted by the text placed before it. */
  lemma Embed(pre: string, x: string, post: string, sub: string, k: nat)
    requires OccursAt(x, sub, k)
    ensures OccursAt(pre + x + post, sub, |pre| + k)
  {
    assert (pre + x + post)[|pre| + k..|pre| + k + |sub|] == x[k..k + |sub|];
  }

  lemma FourPartLayout(a: string, b: string, c: string, d: string)
    ensures StartsWith(a + b + c + d, a)
    ensures OccursAt(a + b + c + d, b, |a|)
    ensures EndsWith(a + b + c + d, d)
  {
    var x := a + b + c + d;
    assert x == a + (b + (c + d));
    assert x[..|a|] == a;
    assert x[|a|..|a| + |b|] == b;
    assert x[|x| - |d|..] == d;
  }

  // ---------------------------------------------------------------- header count

  /** `{session.messages.length}` as the text shown under "Total Messages:". */
  function MessageCountText(s: DebateSession): (r: string)
    ensures AllDigits(r) && |r| >= 1
  {
    NatToString(|s.messages|)
  }

  /** The count shown reads back as the number of messages. */
  lemma MessageCountReadsBack(s: DebateSession)
    ensures ParseInt(MessageCountText(s)) == Num(|s.messages|)
  {
    ParseIntOfNatToString(|s.messages|);
  }
}
