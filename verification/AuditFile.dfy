/**
 * The audit file as bytes: how its lines are read, and what `repairTornAppend` cuts off a file whose
 * last append a crash cut short. A character of these strings is a byte of the file; no line
 * terminator other than a newline is modelled.
 */
module AuditFile {

  const AUDIT_TAIL_BYTES: nat := 0x1_0000

  predicate OneLine(s: string) {
    forall i | 0 <= i < |s| :: s[i] != '\n'
  }

  /** The index of the first newline, or the length. */
  function FirstNewline(s: string): (i: nat)
    ensures i <= |s| && (forall j | 0 <= j < i :: s[j] != '\n') && (i < |s| ==> s[i] == '\n')
  {
    if s == "" || s[0] == '\n' then 0 else 1 + FirstNewline(s[1..])
  }

  /** `lastIndexOf(0x0a)` */
  function LastNewline(s: string): (i: int)
    ensures -1 <= i < |s| && (forall j | i < j < |s| :: s[j] != '\n') && (i >= 0 ==> s[i] == '\n')
  {
    if s == "" then -1 else if s[|s| - 1] == '\n' then |s| - 1 else LastNewline(s[..|s| - 1])
  }

  /** The lines a reader is given: the text up to each newline, and what follows the last if it is not empty. */
  function Lines(text: string): seq<string>
    decreases |text|
  {
    if text == "" then []
    else
      var i := FirstNewline(text);
      if i == |text| then [text] else [text[..i]] + Lines(text[i + 1..])
  }

  /** What appending the lines one by one leaves in the file. */
  function Text(lines: seq<string>): string {
    if lines == [] then "" else Text(lines[..|lines| - 1]) + lines[|lines| - 1] + "\n"
  }

  /** The longest prefix that ends in a newline, or nothing. */
  function Terminated(text: string): (r: string)
    ensures r <= text
  {
    text[..LastNewline(text) + 1]
  }

  function Fragment(text: string): string {
    text[|Terminated(text)|..]
  }

  function TailSize(text: string): nat {
    if |text| < AUDIT_TAIL_BYTES then |text| else AUDIT_TAIL_BYTES
  }

  /** What `repairTornAppend` leaves: it looks for the last newline in the file's tail only. */
  function Repaired(text: string): string {
    var tail := text[|text| - TailSize(text)..];
    var last := LastNewline(tail);
    if text == "" || tail[|tail| - 1] == '\n' then text
    else if last == -1 && |text| > TailSize(text) then text
    else if last == -1 then ""
    else text[..|text| - TailSize(text) + last + 1]
  }

  lemma LastNewlineIs(s: string, i: int)
    requires -1 <= i < |s| && (forall j | i < j < |s| :: s[j] != '\n') && (i >= 0 ==> s[i] == '\n')
    ensures LastNewline(s) == i
  {
  }

  lemma LastNewlineInTwo(head: string, tail: string)
    ensures LastNewline(head + tail) == if LastNewline(tail) >= 0 then |head| + LastNewline(tail) else LastNewline(head)
  {
    var text := head + tail;
    var at := if LastNewline(tail) >= 0 then |head| + LastNewline(tail) else LastNewline(head);
    assert forall i | at < i < |text| :: text[i] != '\n';
    LastNewlineIs(text, at);
  }

  /** The tail settles where the last newline is, or that it is before the tail. */
  lemma RepairedIs(text: string, head: string, tail: string)
    requires text == head + tail && |tail| == TailSize(text)
    ensures Repaired(text) == if LastNewline(text) >= |head| || head == "" then Terminated(text) else text
  {
    LastNewlineInTwo(head, tail);
    assert text[|text| - TailSize(text)..] == tail && |head| == |text| - TailSize(text);
    var last := LastNewline(tail);
    if tail != "" && tail[|tail| - 1] == '\n' {
      assert Terminated(text) == text;
    } else if last == -1 && head == "" {
      assert Terminated(text) == "";
    } else if last >= 0 {
      assert Terminated(text) == text[..|head| + last + 1];
    }
  }

  /**
   * The repair leaves exactly the newline-terminated part of the file if and only if there is nothing
   * to cut, or the unterminated fragment is shorter than the tail it reads, or the tail is the file.
   */
  lemma RepairIsExact(text: string)
    ensures Repaired(text) == Terminated(text)
       <==> Fragment(text) == "" || |Fragment(text)| < AUDIT_TAIL_BYTES || |text| <= AUDIT_TAIL_BYTES
  {
    var size := TailSize(text);
    assert text == text[..|text| - size] + text[|text| - size..];
    RepairedIs(text, text[..|text| - size], text[|text| - size..]);
    assert |Fragment(text)| == |text| - |Terminated(text)|;
    assert Terminated(text) == text <==> |Fragment(text)| == 0;
  }

  lemma FirstNewlineIs(s: string, i: nat)
    requires i <= |s| && (forall j | 0 <= j < i :: s[j] != '\n') && (i < |s| ==> s[i] == '\n')
    ensures FirstNewline(s) == i
  {
    var k := FirstNewline(s);
  }

  lemma {:induction false} TextConcat(xs: seq<string>, ys: seq<string>)
    ensures Text(xs + ys) == Text(xs) + Text(ys)
  {
    if ys == [] {
      assert xs + ys == xs;
    } else {
      assert (xs + ys)[..|xs| + |ys| - 1] == xs + ys[..|ys| - 1];
      TextConcat(xs, ys[..|ys| - 1]);
    }
  }

  /** Lines appended are the lines read. */
  lemma {:induction false} LinesOfText(lines: seq<string>)
    requires forall i | 0 <= i < |lines| :: OneLine(lines[i])
    ensures Lines(Text(lines)) == lines
  {
    if lines != [] {
      var first, rest := lines[0], lines[1..];
      assert lines == [first] + rest;
      TextConcat([first], rest);
      assert [first][..0] == [] && Text([first]) == first + "\n";
      var text := first + "\n" + Text(rest);
      assert text[..|first|] == first && text[|first| + 1..] == Text(rest);
      FirstNewlineIs(text, |first|);
      LinesOfText(rest);
    }
  }

  /** However an append was cut short, the repair leaves the lines before it, whole, and nothing of it. */
  lemma TornAppendIsCut(lines: seq<string>, torn: string)
    requires forall i | 0 <= i < |lines| :: OneLine(lines[i])
    requires OneLine(torn) && |torn| < AUDIT_TAIL_BYTES
    ensures Repaired(Text(lines) + torn) == Text(lines)
    ensures Lines(Repaired(Text(lines) + torn)) == lines
  {
    var kept := Text(lines);
    var text := kept + torn;
    assert text[|kept|..] == torn && text[..|kept|] == kept;
    assert lines != [] ==> kept[|kept| - 1] == '\n';
    LastNewlineIs(text, |kept| - 1);
    RepairIsExact(text);
    LinesOfText(lines);
  }

  /**
   * And a longer one is left in place: the tail the repair reads is all fragment. No record of the
   * daemon's own is so long, so no torn append of one is either.
   */
  lemma LongFragmentStays(lines: seq<string>, torn: string)
    requires lines != [] && OneLine(torn) && |torn| >= AUDIT_TAIL_BYTES
    ensures Repaired(Text(lines) + torn) == Text(lines) + torn != Terminated(Text(lines) + torn)
  {
    var kept := Text(lines);
    var text := kept + torn;
    assert kept[|kept| - 1] == '\n' && text[..|kept|] == kept && text[|kept|..] == torn;
    LastNewlineIs(text, |kept| - 1);
    var tail := text[|text| - TailSize(text)..];
    assert forall i | 0 <= i < |tail| :: tail[i] == torn[|torn| - |tail| + i];
    LastNewlineIs(tail, -1);
  }

  /** Such a file: one empty record and a fragment as long as the tail. */
  lemma AFragmentCanStay() returns (text: string)
    ensures Repaired(text) == text != Terminated(text) && |Fragment(text)| == AUDIT_TAIL_BYTES
  {
    var torn := seq(AUDIT_TAIL_BYTES, _ => 'x');
    LongFragmentStays([""], torn);
    text := Text([""]) + torn;
    assert Text([""]) == "\n" by { assert [""][..0] == []; }
    assert text[0] == '\n' && text[1..] == torn;
    LastNewlineIs(text, 0);
  }
}
