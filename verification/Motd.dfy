/**
 The warning block in the message of the day (`agent/cmd/warn_linux.go`).

 Texts are sequences of characters; the marker texts are plain ASCII, so searching bytes or
 characters finds the same places.
 */
module Motd {
  import opened Prelude

  const START := "[Nekomari] " + "Remote " + "control is " + "enabled on " + "this device"
  const ESC := '\U{1B}'
  const ADVICE := "If you did " + "not set " + "this up, " + "your device " + "may have been " + "accessed " +
                  "without " + "authorization."
  const COMPROMISE := "Stop Nekomari " + "Agent " + "immediately " + "and check " + "your device " + "for signs of " +
                      "compromise."
  const LAST_LINE := "Uninstall " + "Nekomari Agent: " + "https://komari" + "-document" + ".pages.dev" + "/en/faq" +
                     "/uninstall"
  const END := LAST_LINE + "\n"

  datatype Warning = Warning(host: string, user: string)

  // ---------- searching ----------

  predicate OccursAt(s: string, p: string, i: int) {
    0 <= i <= |s| - |p| && s[i..i + |p|] == p
  }

  predicate Free(s: string, p: string) {
    forall i :: 0 <= i < |s| ==> !OccursAt(s, p, i)
  }

  predicate NoneFrom(s: string, p: string, from: int) {
    forall j :: from <= j < |s| && 0 <= j ==> !OccursAt(s, p, j)
  }

  /** The first place from `from` on. */
  predicate FirstFrom(s: string, p: string, from: int, i: int) {
    from <= i && OccursAt(s, p, i) && forall j :: from <= j < i ==> !OccursAt(s, p, j)
  }

  /** The first place where a non-empty text occurs, or -1. */
  function Index(s: string, p: string): (r: int)
    requires p != ""
    ensures r < 0 ==> r == -1 && Free(s, p)
    ensures r >= 0 ==> OccursAt(s, p, r) && FirstFrom(s, p, 0, r)
  {
    IndexFrom(s, p, 0)
  }

  function IndexFrom(s: string, p: string, from: nat): (r: int)
    requires p != "" && from <= |s|
    ensures r < 0 ==> r == -1 && NoneFrom(s, p, from)
    ensures r >= 0 ==> from <= r && OccursAt(s, p, r) && FirstFrom(s, p, from, r)
    decreases |s| - from
  {
    if |s| < from + |p| then -1
    else if OccursAt(s, p, from) then from
    else IndexFrom(s, p, from + 1)
  }

  predicate EndsWith(s: string, p: string) {
    |p| <= |s| && s[|s| - |p|..] == p
  }

  predicate StartsWith(s: string, p: string) {
    |p| <= |s| && s[..|p|] == p
  }

  function TrimNewline(s: string): string {
    if StartsWith(s, "\n") then s[1..] else s
  }

  // ---------- the block ----------

  /** Texts that each begin with a colour code. */
  function Coloured(parts: seq<string>): string {
    if parts == [] then "" else [ESC] + (parts[0] + Coloured(parts[1..]))
  }

  function Lines(lines: seq<string>): string {
    if lines == [] then "" else lines[0] + "\n" + Lines(lines[1..])
  }

  function Phrases(w: Warning): seq<string> {
    ["[33m" + w.host, "[0m can ", "[31mexecute commands", "[0m and read or ", "[31mmodify files",
     "[0m on this device as ", "[33m" + w.user, "[0m."]
  }

  /** What comes between the first and the last line; the first of these ends the first line. */
  function MiddleLines(w: Warning): seq<string> {
    ["", Coloured(Phrases(w)), ADVICE, COMPROMISE, ""]
  }

  function Middle(w: Warning): string {
    Lines(MiddleLines(w))
  }

  function Render(w: Warning): string {
    START + Middle(w) + END
  }

  /** The block as it is printed: who can do what, from where and as whom, and what to do about it. */
  lemma RenderShows(w: Warning)
    ensures Render(w) == START + "\n"
      + ([ESC] + ("[33m" + w.host) + [ESC] + "[0m can " + [ESC] + "[31mexecute commands" + [ESC] + "[0m and read or "
         + [ESC] + "[31mmodify files" + [ESC] + "[0m on this device as " + [ESC] + ("[33m" + w.user) + [ESC] + "[0m."
         + "\n")
      + (ADVICE + "\n") + (COMPROMISE + "\n") + "\n" + LAST_LINE + "\n"
  {
    ColouredLine(w);
    LinesOfBlock(Coloured(Phrases(w)), ADVICE, COMPROMISE);
    BlockIs(START, Coloured(Phrases(w)), ADVICE, COMPROMISE, LAST_LINE);
  }

  lemma BlockIs(start: string, line: string, advice: string, compromise: string, last: string)
    ensures start + ("\n" + line + "\n" + advice + "\n" + compromise + "\n\n") + (last + "\n")
         == start + "\n" + (line + "\n") + (advice + "\n") + (compromise + "\n") + "\n" + last + "\n"
  {
  }

  lemma LineNext(front: string, line: string, lines: seq<string>, all: seq<string>)
    requires all == [line] + lines
    ensures front + Lines(all) == (front + line + "\n") + Lines(lines)
  {
    assert all[1..] == lines;
  }

  lemma LinesOfBlock(line: string, advice: string, compromise: string)
    ensures Lines(["", line, advice, compromise, ""])
         == "\n" + line + "\n" + advice + "\n" + compromise + "\n\n"
  {
    LineNext("", "", [line, advice, compromise, ""], ["", line, advice, compromise, ""]);
    LineNext("\n", line, [advice, compromise, ""], [line, advice, compromise, ""]);
    LineNext("\n" + line + "\n", advice, [compromise, ""], [advice, compromise, ""]);
    LineNext("\n" + line + "\n" + advice + "\n", compromise, [""], [compromise, ""]);
    LineNext("\n" + line + "\n" + advice + "\n" + compromise + "\n", "", [], [""]);
    var front := "\n" + line + "\n" + advice + "\n" + compromise + "\n";
    assert front + "" + "\n" + "" == "\n" + line + "\n" + advice + "\n" + compromise + "\n\n";
    assert "" + "" + "\n" == "\n" && Lines([]) == "";
  }

  lemma ColouredLine(w: Warning)
    ensures Coloured(Phrases(w))
         == [ESC] + ("[33m" + w.host) + [ESC] + "[0m can " + [ESC] + "[31mexecute commands" + [ESC]
            + "[0m and read or " + [ESC] + "[31mmodify files" + [ESC] + "[0m on this device as "
            + [ESC] + ("[33m" + w.user) + [ESC] + "[0m."
  {
    ColouredEight("[33m" + w.host, "[0m can ", "[31mexecute commands", "[0m and read or ", "[31mmodify files",
                  "[0m on this device as ", "[33m" + w.user, "[0m.");
  }

  lemma ColouredNext(front: string, part: string, parts: seq<string>, all: seq<string>)
    requires all == [part] + parts
    ensures front + Coloured(all) == (front + [ESC] + part) + Coloured(parts)
  {
    assert all[1..] == parts;
  }

  lemma ColouredEight(a: string, b: string, c: string, d: string, e: string, f: string, g: string, h: string)
    ensures Coloured([a, b, c, d, e, f, g, h])
         == [ESC] + a + [ESC] + b + [ESC] + c + [ESC] + d + [ESC] + e + [ESC] + f + [ESC] + g + [ESC] + h
  {
    var x := [ESC] + a + [ESC] + b + [ESC] + c + [ESC] + d;
    ColouredNext("", a, [b, c, d, e, f, g, h], [a, b, c, d, e, f, g, h]);
    assert "" + [ESC] + a == [ESC] + a;
    ColouredNext([ESC] + a, b, [c, d, e, f, g, h], [b, c, d, e, f, g, h]);
    ColouredNext([ESC] + a + [ESC] + b, c, [d, e, f, g, h], [c, d, e, f, g, h]);
    ColouredNext([ESC] + a + [ESC] + b + [ESC] + c, d, [e, f, g, h], [d, e, f, g, h]);
    ColouredNext(x, e, [f, g, h], [e, f, g, h]);
    ColouredNext(x + [ESC] + e, f, [g, h], [f, g, h]);
    ColouredNext(x + [ESC] + e + [ESC] + f, g, [h], [g, h]);
    ColouredNext(x + [ESC] + e + [ESC] + f + [ESC] + g, h, [], [h]);
    assert Coloured([]) == "";
    assert "" + Coloured([a, b, c, d, e, f, g, h]) == Coloured([a, b, c, d, e, f, g, h]);
  }

  datatype Removal = Absent | Refused | Found(rest: string)

  function Remove(content: string): Removal {
    RemoveMarked(content, START, END)
  }

  /** Removal of the block between a start text and an end text. */
  function RemoveMarked(content: string, p: string, e: string): Removal
    requires p != "" && e != ""
  {
    var start := Index(content, p);
    if start < 0 then Absent
    else if IndexFrom(content, p, start + |p|) >= 0 then Refused
    else
      var end := IndexFrom(content, e, start);
      if end < 0 then Refused else Found(content[..start] + TrimNewline(content[end + |e|..]))
  }

  function Separator(base: string): string {
    if base == "" || EndsWith(base, "\n\n") then "" else if EndsWith(base, "\n") then "\n" else "\n\n"
  }

  function Installed(base: string, w: Warning): string {
    base + Separator(base) + Render(w)
  }

  /** Host and user come from `warningSingleLine`: no newline. */
  predicate SingleLine(w: Warning) {
    '\n' !in w.host && '\n' !in w.user
  }

  predicate MarkerFree(w: Warning) {
    Free(w.host, START) && Free(w.user, START)
  }

  // ---------- no marker straddles ----------

  lemma StartText()
    ensures |START| == 51 && START[0] == '[' && START[1] == 'N' && START[50] == 'e'
    ensures '\n' !in START && ESC !in START && '[' !in START[1..]
  {
    StartPlaces();
    StartTail();
  }

  lemma StartPlaces()
    ensures |START| == 51 && START[0] == '[' && START[1] == 'N' && START[50] == 'e'
  {
    assert START[40..] == "this device";
    assert START[50] == START[40..][10];
  }

  lemma StartTail()
    ensures '\n' !in START && ESC !in START && '[' !in START[1..]
  {
    StartHasNot('\n');
    StartHasNot(ESC);
    StartBracket();
  }

  lemma StartHasNot(x: char)
    requires x == '\n' || x == ESC
    ensures x !in START
  {
    NotInSum(x, "[Nekomari] ", "Remote ", "control is ", "enabled on ", "this device");
  }

  lemma StartBracket()
    ensures '[' !in START[1..]
  {
    var a, b, c, d, e := "[Nekomari] ", "Remote ", "control is ", "enabled on ", "this device";
    NotInSum('[', a[1..], b, c, d, e);
    TailOfSum(a, b, c, d, e);
  }

  lemma TailOfSum(a: string, b: string, c: string, d: string, e: string)
    requires a != ""
    ensures (a + b + c + d + e)[1..] == a[1..] + b + c + d + e
  {
  }

  lemma NotInSum(x: char, a: string, b: string, c: string, d: string, e: string)
    requires x !in a && x !in b && x !in c && x !in d && x !in e
    ensures x !in a + b + c + d + e
  {
  }

  lemma LastLineText()
    ensures |LAST_LINE| == 76 && LAST_LINE[75] == 'l' && '\n' !in LAST_LINE && '[' !in LAST_LINE
  {
    assert LAST_LINE[66..] == "/uninstall";
    assert LAST_LINE[75] == LAST_LINE[66..][9];
  }

  lemma AdviceText()
    ensures '\n' !in ADVICE && '[' !in ADVICE && |ADVICE| == 85 && ADVICE[84] == '.'
  {
    assert ADVICE[71..] == "authorization.";
    assert ADVICE[84] == ADVICE[71..][13];
  }

  lemma CompromiseText()
    ensures '\n' !in COMPROMISE && '[' !in COMPROMISE && |COMPROMISE| == 78 && COMPROMISE[77] == '.'
  {
    assert COMPROMISE[67..] == "compromise.";
    assert COMPROMISE[77] == COMPROMISE[67..][10];
  }

  /** An occurrence read character by character. */
  lemma OccursChar(s: string, p: string, i: int, k: int)
    requires OccursAt(s, p, i) && 0 <= k < |p|
    ensures s[i + k] == p[k]
  {
    assert s[i..i + |p|][k] == p[k];
  }

  /** Occurrences inside one part of a text. */
  lemma OccursIn(a: string, s: string, b: string, p: string, i: int)
    requires 0 <= i
    ensures OccursAt(s, p, i) ==> OccursAt(a + s + b, p, |a| + i)
    ensures i + |p| <= |s| && OccursAt(a + s + b, p, |a| + i) ==> OccursAt(s, p, i)
  {
    var t := a + s + b;
    if i + |p| <= |s| {
      var u, v := s[i..i + |p|], t[|a| + i..|a| + i + |p|];
      forall k | 0 <= k < |p| ensures u[k] == v[k] {
        assert t[|a| + i + k] == s[i + k];
      }
      assert u == v;
    }
  }

  /** A character that is not in the pattern keeps the two sides apart. */
  lemma FreeAround(a: string, c: char, b: string, p: string)
    requires Free(a, p) && Free(b, p) && c !in p && p != ""
    ensures Free(a + [c] + b, p)
  {
    var s := a + [c] + b;
    assert s == "" + a + ([c] + b) && s == (a + [c]) + b + "" && s[|a|] == c;
    forall i | 0 <= i < |s| ensures !OccursAt(s, p, i) {
      OccursIn("", a, [c] + b, p, i);
      if i > |a| {
        OccursIn(a + [c], b, "", p, i - |a| - 1);
      } else if OccursAt(s, p, i) && |a| < i + |p| {
        OccursChar(s, p, i, |a| - i);
      }
    }
  }

  /** No bracket, no marker. */
  lemma BracketFree(s: string)
    requires '[' !in s
    ensures Free(s, START)
  {
    StartText();
    forall i | 0 <= i < |s| ensures !OccursAt(s, START, i) {
      if OccursAt(s, START, i) {
        OccursChar(s, START, i, 0);
      }
    }
  }

  /** A colour code and what follows it. */
  lemma ColourFree(code: string, b: string)
    requires Free(b, START) && |code| > 1 && code[1] != 'N' && '[' !in code[1..]
    ensures Free(code + b, START)
  {
    StartText();
    var s := code + b;
    assert s == code + b + "";
    forall i | 0 <= i < |s| ensures !OccursAt(s, START, i) {
      if i >= |code| {
        OccursIn(code, b, "", START, i - |code|);
      } else if OccursAt(s, START, i) {
        OccursChar(s, START, i, 1);
        OccursChar(s, START, i, 0);
      }
    }
  }

  /** Text before a marker creates no earlier one, whatever its last characters. */
  lemma FirstMarkerIsOurs(a: string, rest: string, i: int)
    requires Free(a, START) && 0 <= i < |a|
    ensures !OccursAt(a + START + rest, START, i)
  {
    StartText();
    var s := a + START + rest;
    assert s == "" + a + (START + rest);
    OccursIn("", a, START + rest, START, i);
    assert s[|a|] == '[';
    if OccursAt(s, START, i) && |a| < i + |START| {
      OccursChar(s, START, i, |a| - i);
    }
  }

  lemma PhrasesAreFree()
    ensures Free("[0m can ", START) && Free("[31mexecute commands", START) && Free("[0m and read or ", START)
    ensures Free("[31mmodify files", START) && Free("[0m on this device as ", START) && Free("[0m.", START)
  {
    ShortIsFree("[0m can ");
    ShortIsFree("[31mexecute commands");
    ShortIsFree("[0m and read or ");
    ShortIsFree("[31mmodify files");
    ShortIsFree("[0m on this device as ");
    ShortIsFree("[0m.");
  }

  lemma ShortIsFree(s: string)
    requires |s| < 51
    ensures Free(s, START)
  {
    StartText();
  }

  lemma {:induction false} ColouredIsFree(first: string, parts: seq<string>)
    requires Free(first, START) && forall k :: 0 <= k < |parts| ==> Free(parts[k], START)
    ensures Free(first + Coloured(parts), START)
    decreases |parts|
  {
    if parts == [] {
      assert first + Coloured(parts) == first;
    } else {
      StartText();
      ColouredIsFree(parts[0], parts[1..]);
      var rest := parts[0] + Coloured(parts[1..]);
      FreeAround(first, ESC, rest, START);
      assert first + Coloured(parts) == first + [ESC] + rest;
    }
  }

  lemma LineIsFree(w: Warning)
    requires MarkerFree(w)
    ensures Free(Coloured(Phrases(w)), START)
  {
    PhrasesAreFree();
    StartText();
    ColourFree("[33m", w.host);
    ColourFree("[33m", w.user);
    ColouredIsFree("", Phrases(w));
    assert "" + Coloured(Phrases(w)) == Coloured(Phrases(w));
  }

  lemma {:induction false} LinesAreFree(lines: seq<string>, last: string)
    requires Free(last, START) && forall k :: 0 <= k < |lines| ==> Free(lines[k], START)
    ensures Free(Lines(lines) + last, START)
    decreases |lines|
  {
    if lines == [] {
      assert Lines(lines) + last == last;
    } else {
      StartText();
      LinesAreFree(lines[1..], last);
      FreeAround(lines[0], '\n', Lines(lines[1..]) + last, START);
      assert Lines(lines) + last == lines[0] + ['\n'] + (Lines(lines[1..]) + last);
    }
  }

  /** What follows the first marker of a block. */
  function Rest(w: Warning, after: string): string {
    Middle(w) + (END + after)
  }

  lemma RestIsFree(w: Warning, after: string)
    requires MarkerFree(w) && Free(after, START)
    ensures Free(Rest(w, after), START)
  {
    StartText();
    AdviceText(); BracketFree(ADVICE);
    CompromiseText(); BracketFree(COMPROMISE);
    LastLineText(); BracketFree(LAST_LINE);
    LineIsFree(w);
    FreeAround(LAST_LINE, '\n', after, START);
    LinesAreFree(MiddleLines(w), END + after);
  }

  lemma PartIsFree(a: string, s: string, b: string)
    requires Free(a + s + b, START)
    ensures Free(s, START)
  {
    StartText();
    forall i | 0 <= i < |s| ensures !OccursAt(s, START, i) {
      OccursIn(a, s, b, START, i);
    }
  }

  lemma {:induction false} PhraseIsFree(parts: seq<string>, k: nat)
    requires k < |parts| && Free(Coloured(parts), START)
    ensures Free(parts[k], START)
    decreases k
  {
    var rest := Coloured(parts[1..]);
    if k == 0 {
      assert Coloured(parts) == [ESC] + parts[0] + rest;
      PartIsFree([ESC], parts[0], rest);
    } else {
      assert Coloured(parts) == ([ESC] + parts[0]) + rest + "";
      PartIsFree([ESC] + parts[0], rest, "");
      PhraseIsFree(parts[1..], k - 1);
    }
  }

  lemma ColourTail(code: string, b: string)
    requires Free(code + b, START)
    ensures Free(b, START)
  {
    assert code + b == code + b + "";
    PartIsFree(code, b, "");
  }

  lemma LineShowsMarkers(w: Warning)
    requires Free(Coloured(Phrases(w)), START)
    ensures MarkerFree(w)
  {
    PhraseIsFree(Phrases(w), 0);
    PhraseIsFree(Phrases(w), 6);
    ColourTail("[33m", w.host);
    ColourTail("[33m", w.user);
  }

  lemma RestSplits(line: string, advice: string, compromise: string, last: string)
    ensures Lines(["", line, advice, compromise, ""]) + last
         == "\n" + line + ("\n" + Lines([advice, compromise, ""]) + last)
  {
    assert ["", line, advice, compromise, ""][1..] == [line, advice, compromise, ""];
    assert [line, advice, compromise, ""][1..] == [advice, compromise, ""];
  }

  /** Exactly when the rest of a block holds no second marker. */
  lemma RestIsFreeExactly(w: Warning, after: string)
    ensures Free(Rest(w, after), START) <==> MarkerFree(w) && Free(after, START)
  {
    if MarkerFree(w) && Free(after, START) {
      RestIsFree(w, after);
    }
    if Free(Rest(w, after), START) {
      var line, others := Coloured(Phrases(w)), Lines([ADVICE, COMPROMISE, ""]);
      RestSplits(line, ADVICE, COMPROMISE, END + after);
      PartIsFree("\n", line, "\n" + others + (END + after));
      LineShowsMarkers(w);
      assert Rest(w, after) == (Middle(w) + END) + after + "";
      PartIsFree(Middle(w) + END, after, "");
    }
  }

  // ---------- the end of the block ----------

  /** No line ends in the letter l. */
  predicate NoLineEndsInL(s: string) {
    forall i :: 0 < i < |s| && s[i] == '\n' ==> s[i - 1] != 'l'
  }

  predicate PlainLine(line: string) {
    '\n' !in line && (line != "" ==> line[|line| - 1] != 'l')
  }

  lemma AddLine(s: string, line: string)
    requires NoLineEndsInL(s) && s != "" && s[|s| - 1] != 'l' && PlainLine(line)
    ensures NoLineEndsInL(s + line + "\n")
  {
    var t := s + line + "\n";
    forall i | 0 < i < |t| && t[i] == '\n' ensures t[i - 1] != 'l' {
      if i < |s| {
        assert s[i] == '\n';
      }
      assert |s| <= i ==> t[i] == (line + "\n")[i - |s|];
    }
  }

  lemma {:induction false} AddLines(s: string, lines: seq<string>)
    requires NoLineEndsInL(s) && s != "" && s[|s| - 1] != 'l' && forall k :: 0 <= k < |lines| ==> PlainLine(lines[k])
    ensures NoLineEndsInL(s + Lines(lines)) && (lines != [] ==> EndsWith(s + Lines(lines), "\n"))
    decreases |lines|
  {
    if lines == [] {
      assert s + Lines(lines) == s;
    } else {
      AddLine(s, lines[0]);
      var t := s + lines[0] + "\n";
      AddLines(t, lines[1..]);
      assert s + Lines(lines) == t + Lines(lines[1..]);
      assert lines[1..] == [] ==> t + Lines(lines[1..]) == t;
    }
  }

  lemma {:induction false} ColouredIsPlain(parts: seq<string>)
    requires forall k :: 0 <= k < |parts| ==> '\n' !in parts[k]
    requires parts != [] ==> parts[|parts| - 1] != "" && PlainLine(parts[|parts| - 1])
    ensures PlainLine(Coloured(parts)) && (parts != [] ==> Coloured(parts) != "")
    decreases |parts|
  {
    if parts != [] {
      ColouredIsPlain(parts[1..]);
      if parts[1..] == [] {
        assert Coloured(parts) == [ESC] + parts[0];
      }
    }
  }

  lemma BlockLines(w: Warning)
    requires SingleLine(w)
    ensures NoLineEndsInL(START + Middle(w)) && EndsWith(START + Middle(w), "\n")
  {
    StartText();
    AdviceText();
    CompromiseText();
    ColouredIsPlain(Phrases(w));
    AddLines(START, MiddleLines(w));
  }

  /** The first end marker after the start of a block is the block's own. */
  lemma FirstEndIsOurs(s: string, rest: string, i: int)
    requires NoLineEndsInL(s) && s != "" && s[|s| - 1] == '\n' && 0 <= i < |s|
    ensures !OccursAt(s + END + rest, END, i)
  {
    LastLineText();
    var t := s + END + rest;
    assert t[|s| - 1] == '\n' && END[76] == '\n' && END[75] == 'l';
    if OccursAt(t, END, i) {
      if i + 76 < |s| {
        OccursChar(t, END, i, 76);
        OccursChar(t, END, i, 75);
      } else {
        OccursChar(t, END, i, |s| - 1 - i);
      }
    }
  }

  lemma IndexIs(s: string, p: string, from: nat, i: nat)
    requires p != "" && from <= i && OccursAt(s, p, i) && forall j :: from <= j < i ==> !OccursAt(s, p, j)
    ensures IndexFrom(s, p, from) == i
  {
  }

  lemma FirstStart(a: string, rest: string)
    requires Free(a, START)
    ensures Index(a + START + rest, START) == |a|
  {
    var s := a + START + rest;
    assert s[|a|..|a| + |START|] == START;
    forall j | 0 <= j < |a| ensures !OccursAt(s, START, j) {
      FirstMarkerIsOurs(a, rest, j);
    }
    IndexIs(s, START, 0, |a|);
  }

  /** Places in a text and in a tail of it. */
  lemma OccursInTail(s: string, p: string, n: nat, i: nat)
    requires n <= i && n <= |s|
    ensures OccursAt(s, p, i) <==> OccursAt(s[n..], p, i - n)
  {
    assert s == s[..n] + s[n..] + "";
    OccursIn(s[..n], s[n..], "", p, i - n);
  }

  lemma FreeTail(s: string, p: string, n: nat)
    requires p != "" && n <= |s|
    ensures IndexFrom(s, p, n) < 0 <==> Free(s[n..], p)
  {
    var i := IndexFrom(s, p, n);
    if i >= 0 {
      OccursInTail(s, p, n, i);
    } else {
      forall j | 0 <= j < |s[n..]| ensures !OccursAt(s[n..], p, j) {
        OccursInTail(s, p, n, n + j);
      }
    }
  }

  lemma FirstEnd(s: string, n: nat, w: Warning, after: string)
    requires SingleLine(w) && n <= |s| && s[n..] == START + Middle(w) + END + after
    ensures IndexFrom(s, END, n) == n + |START + Middle(w)|
  {
    var front := START + Middle(w);
    BlockLines(w);
    assert front[|front| - 1..][0] == '\n';
    assert s[n..][|front|..|front| + |END|] == END;
    OccursInTail(s, END, n, n + |front|);
    forall j | n <= j < n + |front| ensures !OccursAt(s, END, j) {
      FirstEndIsOurs(front, after, j - n);
      OccursInTail(s, END, n, j);
    }
    IndexIs(s, END, n, n + |front|);
  }

  /** The three ways to look at a text with a block in it. */
  lemma BlockSplits(a: string, start: string, middle: string, end: string, b: string)
    ensures var s := a + (start + middle + end) + b;
      && s == a + start + (middle + (end + b))
      && s[..|a|] == a
      && s[|a| + |start|..] == middle + (end + b)
      && s[|a|..] == start + middle + end + b
      && s[|a| + |start + middle| + |end|..] == b && |a| + |start| <= |s|
  {
    var s := a + (start + middle + end) + b;
    assert s == a + start + (middle + (end + b));
    assert s[|a|..] == start + middle + end + b;
  }

  /**
   Removing a block from between any two texts: it succeeds exactly when neither host, user nor the text after it
   holds a marker, and then gives back both texts without the one newline after the block.
   */
  lemma RemoveBetween(a: string, w: Warning, b: string)
    requires Free(a, START) && SingleLine(w)
    ensures Remove(a + Render(w) + b)
         == if MarkerFree(w) && Free(b, START) then Found(a + TrimNewline(b)) else Refused
  {
    var s := a + Render(w) + b;
    BlockSplits(a, START, Middle(w), END, b);
    FirstStart(a, Rest(w, b));
    FreeTail(s, START, |a| + |START|);
    RestIsFreeExactly(w, b);
    FirstEnd(s, |a|, w, b);
  }

  /**
   A text cut around a block that starts with `p` and ends with the first `e` after it, with no other `p` in the text.
   */
  predicate CutsAt(content: string, p: string, e: string, before: string, inner: string, after: string) {
    && content == before + (p + inner) + after && Free(before, p) && Free(inner + after, p)
    && EndsFirstWith(inner, e)
  }

  /** The text ends with `e`, which does not occur before. */
  predicate EndsFirstWith(s: string, e: string) {
    EndsWith(s, e) && forall i :: 0 <= i < |s| - |e| ==> !OccursAt(s, e, i)
  }

  /** `rest` is the text without such a block and without one newline after it. */
  ghost predicate IsCutOf(content: string, p: string, e: string, rest: string) {
    exists before, inner, after ::
      CutsAt(content, p, e, before, inner, after) && rest == before + TrimNewline(after)
  }

  /** What removal does to any text at all; what has a marker and is no such text is refused. */
  lemma RemoveExactly(content: string)
    ensures Remove(content) == Absent <==> Free(content, START)
    ensures forall rest :: Remove(content) == Found(rest) <==> IsCutOf(content, START, END, rest)
  {
    forall rest ensures Remove(content) == Found(rest) <==> IsCutOf(content, START, END, rest) {
      FoundExactly(content, rest);
    }
  }

  lemma FoundExactly(content: string, rest: string)
    ensures Remove(content) == Found(rest) <==> IsCutOf(content, START, END, rest)
  {
    if Remove(content) == Found(rest) {
      StartHasNoU();
      FoundIsCut(content, START, END);
    }
    if IsCutOf(content, START, END, rest) {
      var before, inner, after :| CutsAt(content, START, END, before, inner, after)
        && rest == before + TrimNewline(after);
      CutIsRemoved(content, before, inner, after);
    }
  }

  lemma CutIsRemoved(content: string, before: string, inner: string, after: string)
    requires CutsAt(content, START, END, before, inner, after)
    ensures Remove(content) == Found(before + TrimNewline(after))
  {
    StartHasNoU();
    FirstStart(before, inner + after);
    assert content == before + START + (inner + after);
    CutIsFound(content, START, END, before, inner, after);
  }

  lemma CutIsFound(content: string, p: string, e: string, before: string, inner: string, after: string)
    requires p != "" && e != "" && e[0] !in p
    requires CutsAt(content, p, e, before, inner, after) && Index(content, p) == |before|
    ensures RemoveMarked(content, p, e) == Found(before + TrimNewline(after))
  {
    var start := |before|;
    CutParts(content, p, before, inner, after);
    NoSecondStart(content, p, start);
    EndOfCut(content, p, e, before, inner, after);
    RemoveIs(content, p, e, start, start + |p| + |inner| - |e|);
  }

  lemma NoSecondStart(content: string, p: string, start: nat)
    requires p != "" && start + |p| <= |content| && Free(content[start + |p|..], p)
    ensures IndexFrom(content, p, start + |p|) < 0
  {
    FreeTail(content, p, start + |p|);
  }

  lemma RemoveIs(content: string, p: string, e: string, start: nat, place: nat)
    requires p != "" && e != "" && Index(content, p) == start && start + |p| <= |content|
    requires IndexFrom(content, p, start + |p|) < 0 && IndexFrom(content, e, start) == place
    ensures RemoveMarked(content, p, e) == Found(content[..start] + TrimNewline(content[place + |e|..]))
  {
  }

  lemma CutParts(content: string, p: string, before: string, inner: string, after: string)
    requires content == before + (p + inner) + after
    ensures |content| == |before| + |p| + |inner| + |after| && content == (before + p) + inner + after
    ensures content[..|before|] == before && content[|before|..|before| + |p|] == p
    ensures content[|before| + |p|..] == inner + after && content[|before| + |p| + |inner|..] == after
  {
  }

  lemma EndOfCut(content: string, p: string, e: string, before: string, inner: string, after: string)
    requires p != "" && e != "" && e[0] !in p && CutsAt(content, p, e, before, inner, after)
    ensures |content| >= |before| && IndexFrom(content, e, |before|) == |before| + |p| + |inner| - |e|
  {
    CutParts(content, p, before, inner, after);
    var place := |before| + |p| + |inner| - |e|;
    OccursIn(before + p, inner, after, e, |inner| - |e|);
    forall j | |before| <= j < place ensures !OccursAt(content, e, j) {
      NoEarlierEnd(content, p, e, before, inner, after, j);
    }
    IndexIs(content, e, |before|, place);
  }

  lemma NoEarlierEnd(content: string, p: string, e: string, before: string, inner: string, after: string, j: nat)
    requires p != "" && e != "" && e[0] !in p && content == (before + p) + inner + after && EndsFirstWith(inner, e)
    requires |before| <= j < |before| + |p| + |inner| - |e|
    ensures !OccursAt(content, e, j)
  {
    var n := |before| + |p|;
    if j >= n {
      OccursIn(before + p, inner, after, e, j - n);
    } else {
      assert content[|before|..n] == p;
      NoEndInStart(content, p, e, |before|, j);
    }
  }

  lemma NoEndInStart(content: string, p: string, e: string, start: nat, j: nat)
    requires e != "" && e[0] !in p && start <= j < start + |p| && OccursAt(content, p, start)
    ensures !OccursAt(content, e, j)
  {
    OccursChar(content, p, start, j - start);
    assert content[j] == p[j - start];
    if OccursAt(content, e, j) {
      OccursChar(content, e, j, 0);
    }
  }

  lemma FoundIsCut(content: string, p: string, e: string)
    requires p != "" && e != "" && e[0] !in p && RemoveMarked(content, p, e).Found?
    ensures IsCutOf(content, p, e, RemoveMarked(content, p, e).rest)
  {
    var start := Index(content, p);
    var place := IndexFrom(content, e, start);
    FoundPlaces(content, p, e, start, place);
    FoundCuts(content, p, e, start, place);
  }

  lemma FoundPlaces(content: string, p: string, e: string, start: int, place: int)
    requires p != "" && e != "" && RemoveMarked(content, p, e).Found?
    requires start == Index(content, p) && place == IndexFrom(content, e, start)
    ensures FirstFrom(content, p, 0, start) && FirstFrom(content, e, start, place)
    ensures Free(content[start + |p|..], p)
    ensures RemoveMarked(content, p, e).rest == content[..start] + TrimNewline(content[place + |e|..])
  {
    RemoveFinds(content, p, e, start, place);
    FreeTail(content, p, start + |p|);
  }

  lemma RemoveFinds(content: string, p: string, e: string, start: int, place: int)
    requires p != "" && e != "" && RemoveMarked(content, p, e).Found?
    requires start == Index(content, p) && place == IndexFrom(content, e, start)
    ensures start >= 0 && place >= 0 && start + |p| <= |content| && IndexFrom(content, p, start + |p|) < 0
    ensures RemoveMarked(content, p, e).rest == content[..start] + TrimNewline(content[place + |e|..])
  {
  }

  lemma FoundCuts(content: string, p: string, e: string, start: nat, place: nat)
    requires e != "" && e[0] !in p && FirstFrom(content, p, 0, start) && FirstFrom(content, e, start, place)
    requires Free(content[start + |p|..], p)
    ensures IsCutOf(content, p, e, content[..start] + TrimNewline(content[place + |e|..]))
  {
    EndAfterStart(content, p, e, start, place);
    SplitAt(content, p, e, start, place);
    PartIsFreeBefore(content, p, start);
    var end := place + |e|;
    var before, inner, after := content[..start], content[start + |p|..end], content[end..];
    FirstInInner(content, e, start + |p|, place);
    CutIs(content, p, e, before, inner, after);
  }

  lemma CutIs(content: string, p: string, e: string, before: string, inner: string, after: string)
    requires CutsAt(content, p, e, before, inner, after)
    ensures IsCutOf(content, p, e, before + TrimNewline(after))
  {
  }

  lemma FirstInInner(content: string, e: string, from: nat, place: nat)
    requires from <= place && FirstFrom(content, e, from, place)
    ensures EndsFirstWith(content[from..place + |e|], e)
  {
    var inner, after := content[from..place + |e|], content[place + |e|..];
    assert content == content[..from] + inner + after && inner[|inner| - |e|..] == content[place..place + |e|];
    forall i | 0 <= i < |inner| - |e| ensures !OccursAt(inner, e, i) {
      OccursIn(content[..from], inner, after, e, i);
    }
  }

  lemma SplitAt(content: string, p: string, e: string, start: nat, place: nat)
    requires OccursAt(content, p, start) && OccursAt(content, e, place) && place >= start + |p|
    ensures var end := place + |e|;
      var inner := content[start + |p|..end];
      && content == content[..start] + (p + inner) + content[end..]
      && EndsWith(inner, e)
      && content[start + |p|..] == inner + content[end..]
  {
    var end := place + |e|;
    var inner := content[start + |p|..end];
    assert content[start..start + |p|] == p;
    assert content[place..place + |e|] == inner[|inner| - |e|..];
  }

  lemma PartIsFreeBefore(s: string, p: string, n: nat)
    requires n <= |s| && forall i :: 0 <= i < n ==> !OccursAt(s, p, i)
    ensures Free(s[..n], p)
  {
    assert s == "" + s[..n] + s[n..];
    forall i | 0 <= i < n ensures !OccursAt(s[..n], p, i) {
      OccursIn("", s[..n], s[n..], p, i);
    }
  }

  /** The two markers cannot overlap: the end begins with a character that the start does not hold. */
  lemma EndAfterStart(content: string, p: string, e: string, start: nat, place: nat)
    requires e != "" && e[0] !in p && start <= place
    requires OccursAt(content, p, start) && OccursAt(content, e, place)
    ensures place >= start + |p|
  {
    if place < start + |p| {
      NoEndInStart(content, p, e, start, place);
    }
  }

  lemma StartHasNoU()
    ensures 'U' !in START && END[0] == 'U'
  {
    assert END[0] == LAST_LINE[0];
  }

  // ---------- installing and cleaning up ----------

  /** What an installation remembers for its cleanup. */
  datatype Plan = Plan(original: Option<string>, base: string, separator: string, managedOnly: bool, installed: string)

  function Content(file: Option<string>): string {
    if file.Some? then file.value else ""
  }

  /** A text without its warning block, if it has one. */
  function UserText(content: string): string {
    match Remove(content)
    case Found(rest) => rest
    case _ => content
  }

  function PlanFor(file: Option<string>, w: Warning): Option<Plan> {
    var content := Content(file);
    if Remove(content).Refused? then None
    else
      var base := UserText(content);
      Some(Plan(file, base, Separator(base), Remove(content).Found? && base == "", Installed(base, w)))
  }

  function TrimPrefix(s: string, p: string): string {
    if StartsWith(s, p) then s[|p|..] else s
  }

  function CleanedUp(plan: Plan, current: Option<string>): Option<string> {
    if current.None? then None
    else if current.value == plan.installed then plan.original
    else
      match Remove(current.value)
      case Found(rest) =>
        var content := if plan.original.Some? && StartsWith(rest, plan.base + plan.separator)
                       then plan.base + TrimPrefix(rest, plan.base + plan.separator) else rest;
        if (plan.original.None? || plan.managedOnly) && content == "" then None else Some(content)
      case _ => current
  }

  /** One process's hold on the file. */
  class Motd {
    var file: Option<string>

    constructor (file: Option<string>)
      ensures this.file == file
    {
      this.file := file;
    }

    /** `canRead` and `canWrite` say whether the file system lets it. */
    method Install(w: Warning, canRead: bool, canWrite: bool) returns (cleanup: Option<Cleanup>)
      modifies `file
      ensures cleanup.Some? <==> canRead && PlanFor(old(file), w).Some? && canWrite
      ensures cleanup.None? ==> file == old(file)
      ensures cleanup.Some? ==> fresh(cleanup.value) && cleanup.value.motd == this && !cleanup.value.done
                                && PlanFor(old(file), w) == Some(cleanup.value.plan)
                                && file == Some(cleanup.value.plan.installed)
    {
      if !canRead {
        return None;
      }
      var original := if file.Some? then file.value else "";
      var removal := Remove(original);
      if removal.Refused? {
        return None;
      }
      var base := if removal.Found? then removal.rest else original;
      var managedOnly := removal.Found? && base == "";
      var separator, updated := "", Render(w);
      if base != "" {
        separator := "\n\n";
        if EndsWith(base, "\n\n") {
          separator := "";
        } else if EndsWith(base, "\n") {
          separator := "\n";
        }
        updated := base + separator + updated;
      } else {
        assert base + separator + updated == updated;
      }
      if !canWrite {
        return None;
      }
      var c := new Cleanup(this, Plan(file, base, separator, managedOnly, updated));
      file := Some(updated);
      return Some(c);
    }
  }

  /** The function an installation returns; it acts once. */
  class Cleanup {
    const motd: Motd
    const plan: Plan
    var done: bool

    constructor (motd: Motd, plan: Plan)
      ensures this.motd == motd && this.plan == plan && !done
    {
      this.motd, this.plan, done := motd, plan, false;
    }

    method Run(canRead: bool, canWrite: bool)
      modifies `done, motd`file
      ensures done
      ensures motd.file == if old(done) || !canRead
              || !canWrite then old(motd.file) else CleanedUp(plan, old(motd.file))
    {
      if done {
        return;
      }
      done := true;
      if !canRead || motd.file.None? {
        return;
      }
      if motd.file.value == plan.installed {
        if canWrite {
          motd.file := plan.original;
        }
        return;
      }
      var removal := Remove(motd.file.value);
      if !removal.Found? {
        return;
      }
      var content := removal.rest;
      if plan.original.Some? && StartsWith(content, plan.base + plan.separator) {
        content := plan.base + TrimPrefix(content, plan.base + plan.separator);
      }
      if canWrite {
        motd.file := if (plan.original.None? || plan.managedOnly) && content == "" then None else Some(content);
      }
    }
  }

  // ---------- one installation ----------

  predicate Clean(w: Warning) {
    SingleLine(w) && MarkerFree(w)
  }

  lemma SeparatorEndsLines(base: string)
    ensures var s := base + Separator(base);
      && (s == "" || EndsWith(s, "\n\n")) && Separator(s) == ""
      && (Free(base, START) ==> Free(s, START))
  {
    SeparatorEnds(base);
    if Free(base, START) {
      NewlinesKeepFree(base);
    }
  }

  lemma SeparatorEnds(base: string)
    ensures var s := base + Separator(base);
      (s == "" || EndsWith(s, "\n\n")) && Separator(s) == ""
  {
    if base == "" || EndsWith(base, "\n\n") {
      assert base + "" == base;
    } else if EndsWith(base, "\n") {
      OneNewline(base, base[..|base| - 1]);
      TwoNewlines(base[..|base| - 1]);
    } else {
      TwoNewlines(base);
    }
  }

  /** The separator is the shortest run of newlines that leaves a blank line after the base, and none after nothing. */
  lemma SeparatorIsShortest(base: string, n: nat)
    ensures Separator("") == ""
    ensures base != "" && EndsWith(base + seq(n, _ => '\n'), "\n\n") ==> |Separator(base)| <= n
    ensures base != "" ==>
      EndsWith(base + Separator(base), "\n\n") && forall k :: 0 <= k < |Separator(base)| ==> Separator(base)[k] == '\n'
  {
    SeparatorEnds(base);
    if base != "" && EndsWith(base + seq(n, _ => '\n'), "\n\n") {
      ShorterEnds(base, n);
    }
  }

  lemma ShorterEnds(base: string, n: nat)
    requires base != "" && EndsWith(base + seq(n, _ => '\n'), "\n\n")
    ensures n == 0 ==> EndsWith(base, "\n\n")
    ensures n == 1 ==> EndsWith(base, "\n")
  {
    var s := base + seq(n, _ => '\n');
    if n == 0 {
      assert s == base;
    } else if n == 1 {
      assert s[|s| - 2..][0] == '\n' && s[|s| - 2] == base[|base| - 1];
      assert base[|base| - 1..] == [base[|base| - 1]];
    }
  }

  /** One newline at the front is what is trimmed, if there is one. */
  lemma TrimsOneNewline(s: string)
    ensures TrimNewline("\n" + s) == s
    ensures s == "" || s[0] != '\n' ==> TrimNewline(s) == s
  {
    assert ("\n" + s)[..1] == "\n";
    assert ("\n" + s)[1..] == s;
  }

  lemma OneNewline(base: string, front: string)
    requires EndsWith(base, "\n") && front == base[..|base| - 1]
    ensures base + "\n" == front + "\n\n"
  {
    assert base[|base| - 1] == base[|base| - 1..][0] == '\n';
  }

  lemma TwoNewlines(s: string)
    ensures EndsWith(s + "\n\n", "\n\n") && Separator(s + "\n\n") == ""
  {
    assert (s + "\n\n")[|s|..] == "\n\n";
  }

  lemma NewlinesKeepFree(s: string)
    requires Free(s, START)
    ensures Free(s + "\n", START) && Free(s + "\n\n", START) && Free(s + "", START)
  {
    StartText();
    assert s + ['\n'] + "" == s + "\n" && s + "\n" + ['\n'] + "" == s + "\n\n" && s + "" == s;
    FreeAround(s, '\n', "", START);
    FreeAround(s + "\n", '\n', "", START);
  }

  /** What a later look finds after an installation and an append. */
  lemma RemoveInstalled(base: string, w: Warning, tail: string)
    requires Free(base, START) && SingleLine(w)
    ensures Remove(Installed(base, w) + tail)
         == if MarkerFree(w) && Free(tail, START) then Found(base + Separator(base) + TrimNewline(tail)) else Refused
  {
    SeparatorEndsLines(base);
    RemoveBetween(base + Separator(base), w, tail);
  }

  /** Installing over an earlier, untouched installation replaces the block and nothing else. */
  lemma ReinstallReplaces(base: string, w: Warning, w': Warning)
    requires Free(base, START) && Clean(w)
    ensures PlanFor(Some(Installed(base, w)), w').Some?
    ensures Reinstalled(Some(Installed(base, w)), w') == Some(Installed(base, w'))
  {
    var s := base + Separator(base);
    RemoveInstalled(base, w, "");
    assert Installed(base, w) + "" == Installed(base, w) && s + "" == s;
    SeparatorEndsLines(base);
    assert Installed(s, w') == s + "" + Render(w');
  }

  function Reinstalled(file: Option<string>, w: Warning): Option<string> {
    var plan := PlanFor(file, w);
    if plan.None? then file else Some(plan.value.installed)
  }

  function Repeat(step: (Option<string>, Warning) -> Option<string>, file: Option<string>,
                  ws: seq<Warning>): Option<string>
    decreases |ws|
  {
    if ws == [] then file else Repeat(step, step(file, ws[0]), ws[1..])
  }

  /** The file after installations that are never cleaned up. */
  function Rounds(file: Option<string>, ws: seq<Warning>): Option<string> {
    Repeat(Reinstalled, file, ws)
  }

  function InstalledOn(base: string): Warning -> string {
    (w: Warning) => Installed(base, w)
  }

  /** A step that takes the text for one warning to the text for the next. */
  ghost predicate Follows(step: (Option<string>, Warning) -> Option<string>, text: Warning -> string,
                          good: Warning -> bool) {
    forall w, w' :: good(w) ==> step(Some(text(w)), w') == Some(text(w'))
  }

  lemma InstalledFollows(base: string)
    requires Free(base, START)
    ensures Follows(Reinstalled, InstalledOn(base), Clean)
  {
    var text := InstalledOn(base);
    forall w, w' | Clean(w) ensures Reinstalled(Some(text(w)), w') == Some(text(w')) {
      ReinstallReplaces(base, w, w');
      InstalledOnIs(base, w);
      InstalledOnIs(base, w');
    }
  }

  lemma InstalledOnIs(base: string, w: Warning)
    ensures InstalledOn(base)(w) == Installed(base, w)
  {
  }

  lemma {:induction false} RepeatFollows(step: (Option<string>, Warning) -> Option<string>, text: Warning -> string,
                                         good: Warning -> bool, w: Warning, ws: seq<Warning>)
    requires Follows(step, text, good) && good(w) && forall k :: 0 <= k < |ws| ==> good(ws[k])
    ensures Repeat(step, Some(text(w)), ws) == Some(text(if ws == [] then w else ws[|ws| - 1]))
    decreases |ws|
  {
    if ws != [] {
      RepeatFollows(step, text, good, ws[0], ws[1..]);
    }
  }

  /** Any number of installations without cleanup leave what the last one alone would leave. */
  lemma RoundsReachFixedPoint(base: string, w: Warning, ws: seq<Warning>)
    requires Free(base, START) && Clean(w) && forall k :: 0 <= k < |ws| ==> Clean(ws[k])
    ensures Rounds(Some(Installed(base, w)), ws) == Some(Installed(base, if ws == [] then w else ws[|ws| - 1]))
  {
    InstalledFollows(base);
    InstalledOnIs(base, w);
    InstalledOnIs(base, if ws == [] then w else ws[|ws| - 1]);
    RepeatFollows(Reinstalled, InstalledOn(base), Clean, w, ws);
  }

  /**
   Cleaning up after text was appended: the base comes back exactly, with the appended text, less one leading
   newline, right after it.  The file goes away when nothing is left and there was nothing but a block before.
   */
  lemma AppendedTextSurvives(file: Option<string>, w: Warning, tail: string)
    requires Clean(w) && PlanFor(file, w).Some? && Free(UserText(Content(file)), START)
    requires tail != "" && Free(tail, START)
    ensures var p := PlanFor(file, w).value;
      var text := p.base + TrimNewline(tail);
      CleanedUp(p, Some(p.installed + tail))
        == if text == "" && (file.None? || Remove(file.value) == Found("")) then None else Some(text)
  {
    var p := PlanFor(file, w).value;
    RemoveInstalled(p.base, w, tail);
    EmptyIsFree();
    CleanedUpAfter(p, p.installed + tail, TrimNewline(tail));
  }

  lemma CleanedUpAfter(p: Plan, current: string, tail: string)
    requires current != p.installed && Remove(current) == Found(p.base + p.separator + tail)
    requires p.original.None? ==> p.base == p.separator == ""
    ensures CleanedUp(p, Some(current))
         == if p.base + tail == "" && (p.original.None? || p.managedOnly) then None else Some(p.base + tail)
  {
    var rest := p.base + p.separator + tail;
    assert rest[..|p.base + p.separator|] == p.base + p.separator && rest[|p.base + p.separator|..] == tail;
    if p.original.None? {
      assert rest == tail && p.base + tail == tail;
    }
  }

  lemma EmptyIsFree()
    ensures Remove("") == Absent && Separator("") == ""
  {
  }

  /**
   Cleaning up an unchanged installation restores the original bytes.  So a block that an interrupted run left
   behind comes back: the file is free of markers afterwards exactly when it was before the installation.
   */
  lemma CleanupRestores(file: Option<string>, w: Warning)
    requires PlanFor(file, w).Some?
    ensures var p := PlanFor(file, w).value;
      && CleanedUp(p, Some(p.installed)) == file
      && (Remove(Content(CleanedUp(p, Some(p.installed)))).Found? <==> Remove(Content(file)).Found?)
  {
  }

  /** The same with the interrupted run spelled out: crash, restart, clean stop; the first run's block stays. */
  lemma InterruptedBlockComesBack(base: string, w: Warning, w': Warning)
    requires Free(base, START) && Clean(w)
    ensures var left := Some(Installed(base, w));
      var p := PlanFor(left, w');
      p.Some? && CleanedUp(p.value, Some(p.value.installed)) == left && Remove(Content(left)).Found?
  {
    ReinstallReplaces(base, w, w');
    CleanupRestores(Some(Installed(base, w)), w');
    RemoveInstalled(base, w, "");
    assert Installed(base, w) + "" == Installed(base, w);
  }

  // ---------- runs of starts, appends, stops and crashes ----------

  /** The file and what the running process remembers. */
  datatype World = World(file: Option<string>, plan: Option<Plan>)

  datatype Event = Start(w: Warning) | Append(text: string) | Stop | Crash

  /** No marker appears that was not there. */
  predicate AddsNoMarker(content: string, text: string) {
    forall i :: 0 <= i < |content + text| && OccursAt(content + text, START, i) ==> OccursAt(content, START, i)
  }

  /** No marker is half written at the end. */
  predicate NoHalfMarker(s: string) {
    forall k :: 0 < k < |START| ==> !EndsWith(s, START[..k])
  }

  predicate Enabled(w: World, e: Event) {
    match e
    case Start(warning) => w.plan.None? && SingleLine(warning)
    case Append(_) => true
    case Stop => w.plan.Some?
    case Crash => true
  }

  /**
   What conservation asks of an event: no host, user or appended text brings in a marker, and no start finds half a
   marker at the end of the user's text.
   */
  predicate Careful(w: World, e: Event) {
    match e
    case Start(warning) => MarkerFree(warning) && NoHalfMarker(UserText(Content(w.file)))
    case Append(text) => AddsNoMarker(Content(w.file), text)
    case _ => true
  }

  function Step(w: World, e: Event): World
    requires Enabled(w, e)
  {
    match e
    case Start(warning) => World(Reinstalled(w.file, warning), PlanFor(w.file, warning))
    case Append(text) => w.(file := Some(Content(w.file) + text))
    case Stop => World(CleanedUp(w.plan.value, w.file), None)
    case Crash => w.(plan := None)
  }

  predicate Legal(w: World, run: seq<Event>)
    decreases |run|
  {
    run == [] || (Enabled(w, run[0]) && Legal(Step(w, run[0]), run[1..]))
  }

  function Run(w: World, run: seq<Event>): World
    requires Legal(w, run)
    decreases |run|
  {
    if run == [] then w else Run(Step(w, run[0]), run[1..])
  }

  predicate CarefulRun(w: World, run: seq<Event>)
    requires Legal(w, run)
    decreases |run|
  {
    run == [] || (Careful(w, run[0]) && CarefulRun(Step(w, run[0]), run[1..]))
  }

  function TextOf(e: Event): string {
    if e.Append? then e.text else ""
  }

  function Appended(run: seq<Event>): string {
    if run == [] then "" else TextOf(run[0]) + Appended(run[1..])
  }

  /** Everything but the newlines. */
  function Letters(s: string): string {
    if s == "" then "" else (if s[0] == '\n' then "" else [s[0]]) + Letters(s[1..])
  }

  /** The user's text in the file, newlines aside. */
  function Said(file: Option<string>): string {
    Letters(UserText(Content(file)))
  }

  lemma {:induction false} LettersAppend(a: string, b: string)
    ensures Letters(a + b) == Letters(a) + Letters(b)
  {
    if a == "" {
      assert a + b == b;
    } else {
      assert (a + b)[1..] == a[1..] + b;
      LettersAppend(a[1..], b);
    }
  }

  lemma LettersOfNewlines()
    ensures Letters("\n") == "" && Letters("\n\n") == ""
  {
    assert "\n\n"[1..] == "\n" && "\n"[1..] == "";
  }

  lemma LettersOfSeparator(base: string)
    ensures Letters(Separator(base)) == ""
  {
    LettersOfNewlines();
  }

  lemma LettersOfTrim(tail: string)
    ensures Letters(TrimNewline(tail)) == Letters(tail)
  {
  }

  lemma LettersOfParts(base: string, tail: string)
    ensures Letters(base + Separator(base) + TrimNewline(tail)) == Letters(base) + Letters(tail)
    ensures Letters(base + TrimNewline(tail)) == Letters(base) + Letters(tail)
  {
    var separator, rest := Separator(base), TrimNewline(tail);
    LettersOfSeparator(base);
    LettersOfTrim(tail);
    LettersAppend(base, separator);
    LettersAppend(base + separator, rest);
    LettersAppend(base, rest);
  }

  /** The file as an earlier run may have left it: no block, or one block that begins a line. */
  ghost predicate Shape(content: string) {
    Free(content, START) ||
    exists base, w, tail :: BlockIn(content, base, w, tail)
  }

  predicate BlockIn(content: string, base: string, w: Warning, tail: string) {
    && content == Installed(base, w) + tail
    && Clean(w) && Free(base, START) && Free(tail, START)
  }

  /** The process's own block is in the file. */
  ghost predicate Holds(p: Plan, file: Option<string>) {
    && p.base == UserText(Content(p.original)) && p.separator == Separator(p.base)
    && Shape(Content(p.original)) && NoHalfMarker(p.base)
    && (p.managedOnly ==> p.base == "")
    && file.Some?
    && exists w, tail :: BlockIn(file.value, p.base, w, tail) && p.installed == Installed(p.base, w)
  }

  ghost predicate Inv(w: World) {
    Shape(Content(w.file)) && (w.plan.Some? ==> Holds(w.plan.value, w.file))
  }

  lemma BlockText(content: string, base: string, w: Warning, tail: string)
    requires BlockIn(content, base, w, tail)
    ensures Remove(content) == Found(base + Separator(base) + TrimNewline(tail))
    ensures Free(base + Separator(base) + TrimNewline(tail), START)
  {
    RemoveInstalled(base, w, tail);
    JoinAfterSeparator(base, tail);
  }

  lemma ShapeText(content: string)
    requires Shape(content)
    ensures Remove(content) != Refused && Free(UserText(content), START)
  {
    if !Free(content, START) {
      var base, w, tail :| BlockIn(content, base, w, tail);
      BlockText(content, base, w, tail);
    }
  }

  lemma TrimFree(tail: string)
    requires Free(tail, START)
    ensures Free(TrimNewline(tail), START)
  {
    if StartsWith(tail, "\n") {
      assert tail == tail[..1] + tail[1..] + "";
      PartIsFree(tail[..1], tail[1..], "");
    }
  }

  lemma JoinAfterSeparator(base: string, tail: string)
    requires Free(base, START) && Free(tail, START)
    ensures Free(base + Separator(base) + TrimNewline(tail), START)
  {
    StartText();
    TrimFree(tail);
    SeparatorEndsLines(base);
    var s := base + Separator(base);
    if s == "" {
      assert s + TrimNewline(tail) == TrimNewline(tail);
    } else {
      var n := |s| - 1;
      assert s == s[..n] + ['\n'] by { assert s[|s| - 2..][1] == '\n'; }
      assert s == "" + s[..n] + ['\n'];
      PartIsFree("", s[..n], ['\n']);
      FreeAround(s[..n], '\n', TrimNewline(tail), START);
    }
  }

  lemma HalfMarker(a: string, b: string, i: nat)
    requires OccursAt(a + b, START, i) && i < |a| < i + |START|
    ensures EndsWith(a, START[..|a| - i])
  {
    assert (a + b)[i..i + |START|][..|a| - i] == a[i..];
  }

  /** Without half a marker at its end a text can be continued by any other. */
  lemma JoinFree(a: string, b: string)
    requires Free(a, START) && Free(b, START) && NoHalfMarker(a)
    ensures Free(a + b, START)
  {
    StartText();
    var s := a + b;
    assert s == "" + a + b && s == a + b + "";
    forall i | 0 <= i < |s| ensures !OccursAt(s, START, i) {
      OccursIn("", a, b, START, i);
      if i >= |a| {
        OccursIn(a, b, "", START, i - |a|);
      } else if OccursAt(s, START, i) && |a| < i + |START| {
        HalfMarker(a, b, i);
      }
    }
  }

  lemma InstalledIs(base: string, w: Warning)
    ensures Installed(base, w) + "" == Installed(base, w)
  {
  }

  lemma StartKeepsInv(w: World, warning: Warning)
    requires Inv(w) && Enabled(w, Start(warning)) && Careful(w, Start(warning))
    ensures Inv(Step(w, Start(warning)))
    ensures Step(w, Start(warning)).plan.Some?
    ensures Said(Step(w, Start(warning)).file) == Said(w.file)
  {
    var content := Content(w.file);
    ShapeText(content);
    var base := UserText(content);
    var p := PlanFor(w.file, warning).value;
    assert p.installed == Installed(base, warning);
    EmptyIsFree();
    InstalledIs(base, warning);
    assert BlockIn(p.installed, base, warning, "");
    BlockText(p.installed, base, warning, "");
    LettersOfParts(base, "");
  }

  lemma AppendToBlock(content: string, base: string, w: Warning, tail: string, text: string)
    requires BlockIn(content, base, w, tail) && AddsNoMarker(content, text)
    ensures BlockIn(content + text, base, w, tail + text)
  {
    var front := Installed(base, w);
    var all := content + text;
    assert all == front + (tail + text) + "" == front + tail + text;
    forall i | 0 <= i < |tail + text| ensures !OccursAt(tail + text, START, i) {
      OccursIn(front, tail + text, "", START, i);
      OccursIn(front, tail, "", START, i);
      assert front + tail + "" == content;
    }
  }

  lemma BlockSays(content: string, base: string, w: Warning, tail: string)
    requires BlockIn(content, base, w, tail)
    ensures Said(Some(content)) == Letters(base) + Letters(tail)
  {
    BlockText(content, base, w, tail);
    LettersOfParts(base, tail);
  }

  lemma FreeSays(content: string)
    requires Free(content, START)
    ensures Said(Some(content)) == Letters(content)
  {
    RemoveExactly(content);
  }

  lemma LongerSays(said: string, said': string, base: string, tail: string, text: string)
    requires said == Letters(base) + Letters(tail) && said' == Letters(base) + Letters(tail + text)
    ensures said' == said + Letters(text)
  {
    LettersAppend(tail, text);
    Regroup(said', said, Letters(base), Letters(tail), Letters(text), Letters(tail + text));
  }

  lemma TextAfterAppend(content: string, text: string)
    requires Shape(content) && AddsNoMarker(content, text)
    ensures Shape(content + text) && Said(Some(content + text)) == Said(Some(content)) + Letters(text)
  {
    if Free(content, START) {
      LettersAppend(content, text);
      FreeSays(content);
      FreeSays(content + text);
    } else {
      var base, w, tail :| BlockIn(content, base, w, tail);
      AppendToBlock(content, base, w, tail, text);
      BlockSays(content, base, w, tail);
      BlockSays(content + text, base, w, tail + text);
      LongerSays(Said(Some(content)), Said(Some(content + text)), base, tail, text);
    }
  }

  lemma AppendKeepsInv(w: World, text: string)
    requires Inv(w) && Careful(w, Append(text))
    ensures Inv(Step(w, Append(text)))
    ensures Said(Step(w, Append(text)).file) == Said(w.file) + Letters(text)
  {
    TextAfterAppend(Content(w.file), text);
    if w.plan.Some? {
      var p := w.plan.value;
      var warning, tail :| BlockIn(w.file.value, p.base, warning, tail) && p.installed == Installed(p.base, warning);
      AppendToBlock(w.file.value, p.base, warning, tail, text);
    }
  }

  /** The cleanup of a process whose block is still there. */
  lemma StopLeaves(p: Plan, file: Option<string>, w: Warning, tail: string)
    requires Holds(p, file) && BlockIn(file.value, p.base, w, tail) && p.installed == Installed(p.base, w)
    ensures tail == "" ==> CleanedUp(p, file) == p.original
    ensures tail != "" ==> Content(CleanedUp(p, file)) == p.base + TrimNewline(tail)
  {
    if tail == "" {
      InstalledIs(p.base, w);
    } else {
      BlockText(file.value, p.base, w, tail);
      assert |file.value| == |p.installed| + |tail|;
      EmptyIsFree();
      CleanedUpAfter(p, file.value, TrimNewline(tail));
    }
  }

  lemma StopKeepsInv(w: World)
    requires Inv(w) && Enabled(w, Stop)
    ensures Inv(Step(w, Stop))
    ensures Said(Step(w, Stop).file) == Said(w.file)
  {
    var p := w.plan.value;
    var warning, tail :| BlockIn(w.file.value, p.base, warning, tail) && p.installed == Installed(p.base, warning);
    StopLeaves(p, w.file, warning, tail);
    BlockText(w.file.value, p.base, warning, tail);
    LettersOfParts(p.base, tail);
    if tail != "" {
      TrimFree(tail);
      JoinFree(p.base, TrimNewline(tail));
      RemoveExactly(p.base + TrimNewline(tail));
    }
  }

  lemma StepKeepsInv(w: World, e: Event)
    requires Inv(w) && Enabled(w, e) && Careful(w, e)
    ensures Inv(Step(w, e))
    ensures Said(Step(w, e).file) == Said(w.file) + Letters(TextOf(e))
  {
    match e
    case Start(warning) => StartKeepsInv(w, warning);
    case Append(text) => AppendKeepsInv(w, text);
    case Stop => StopKeepsInv(w);
    case Crash =>
  }

  lemma {:induction false} RunKeepsInv(w: World, run: seq<Event>)
    requires Inv(w) && Legal(w, run) && CarefulRun(w, run)
    ensures Inv(Run(w, run))
    decreases |run|
  {
    if run != [] {
      StepKeepsInv(w, run[0]);
      RunKeepsInv(Step(w, run[0]), run[1..]);
    }
  }

  lemma {:induction false} RunSays(w: World, run: seq<Event>)
    requires Inv(w) && Legal(w, run) && CarefulRun(w, run)
    ensures Said(Run(w, run).file) == Said(w.file) + Letters(Appended(run))
    decreases |run|
  {
    if run != [] {
      var first, rest := TextOf(run[0]), Appended(run[1..]);
      StepKeepsInv(w, run[0]);
      RunSays(Step(w, run[0]), run[1..]);
      LettersAppend(first, rest);
      Unfold(w, run);
      Regroup(Said(Run(w, run).file), Said(Step(w, run[0]).file), Said(w.file), Letters(first), Letters(rest),
              Letters(first + rest));
    }
  }

  lemma Unfold(w: World, run: seq<Event>)
    requires run != [] && Legal(w, run)
    ensures Run(w, run) == Run(Step(w, run[0]), run[1..])
    ensures Appended(run) == TextOf(run[0]) + Appended(run[1..])
  {
  }

  lemma Regroup(end: string, middle: string, start: string, first: string, rest: string, both: string)
    requires middle == start + first && both == first + rest
    ensures end == middle + rest <==> end == start + both
  {
  }

  /** The text is not refused, and, newlines aside, it is what it was and what was appended since, in order. */
  ghost predicate Conserves(w: World, run: seq<Event>)
    requires Legal(w, run)
  {
    var end := Run(w, run).file;
    Remove(Content(end)) != Refused && Said(end) == Said(w.file) + Letters(Appended(run))
  }

  lemma CarefulRunConserves(w: World, run: seq<Event>)
    requires Inv(w) && Legal(w, run) && CarefulRun(w, run)
    ensures Conserves(w, run)
  {
    RunKeepsInv(w, run);
    RunSays(w, run);
    ShapeText(Content(Run(w, run).file));
  }

  /**
   Over any careful run of starts, appends, clean stops and crashes, from a file without markers: the tool is never
   stuck at a text it refuses, and, newlines aside, the text around the block is what was there at first and what was
   appended since, in order.
   */
  lemma UserTextIsConserved(file: Option<string>, run: seq<Event>)
    requires Free(Content(file), START) && Legal(World(file, None), run) && CarefulRun(World(file, None), run)
    ensures var end := Content(Run(World(file, None), run).file);
      Remove(end) != Refused && Letters(UserText(end)) == Letters(Content(file)) + Letters(Appended(run))
  {
    CarefulRunConserves(World(file, None), run);
    RemoveExactly(Content(file));
  }

  // ---------- when care is needed ----------

  /** However a run goes on carefully after the event, it conserves the text. */
  ghost predicate AlwaysConserves(w: World, e: Event)
    requires Enabled(w, e)
  {
    forall run :: Legal(Step(w, e), run) && CarefulRun(Step(w, e), run) ==> ConservesAfter(w, e, run)
  }

  ghost predicate ConservesAfter(w: World, e: Event, run: seq<Event>)
    requires Enabled(w, e) && Legal(Step(w, e), run)
  {
    var end := Run(Step(w, e), run).file;
    Remove(Content(end)) != Refused && Said(end) == Said(w.file) + Letters(TextOf(e) + Appended(run))
  }

  /**
   The exact condition, in every state that a careful run reaches: an event is careful exactly when every careful way
   to go on after it conserves the text.
   */
  lemma CareIsNeededExactly(file: Option<string>, before: seq<Event>, e: Event)
    requires Free(Content(file), START) && Legal(World(file, None), before) && CarefulRun(World(file, None), before)
    requires Enabled(Run(World(file, None), before), e)
    ensures var w := Run(World(file, None), before);
      Careful(w, e) <==> AlwaysConserves(w, e)
  {
    var w := Run(World(file, None), before);
    RunKeepsInv(World(file, None), before);
    if Careful(w, e) {
      CarefulEventConserves(w, e);
    } else if e.Start? {
      CarelessStart(w, e.w);
    } else {
      CarelessAppend(w, e.text);
    }
  }

  lemma CarefulEventConserves(w: World, e: Event)
    requires Inv(w) && Enabled(w, e) && Careful(w, e)
    ensures AlwaysConserves(w, e)
  {
    forall run | Legal(Step(w, e), run) && CarefulRun(Step(w, e), run) ensures ConservesAfter(w, e, run) {
      assert ([e] + run)[1..] == run;
      CarefulRunConserves(w, [e] + run);
    }
  }

  /** The state right after the event is already wrong. */
  lemma WrongAtOnce(w: World, e: Event)
    requires Enabled(w, e) && !ConservesAfter(w, e, [])
    ensures !AlwaysConserves(w, e)
  {
    assert Legal(Step(w, e), []) && CarefulRun(Step(w, e), []);
  }

  lemma CarelessStart(w: World, warning: Warning)
    requires Inv(w) && Enabled(w, Start(warning)) && !Careful(w, Start(warning))
    ensures !AlwaysConserves(w, Start(warning))
  {
    var base := UserText(Content(w.file));
    ShapeText(Content(w.file));
    InstalledIs(base, warning);
    RemoveInstalled(base, warning, "");
    if !MarkerFree(warning) {
      WrongAtOnce(w, Start(warning));
    } else {
      var k :| 0 < k < |START| && EndsWith(base, START[..k]);
      HalfMarkerStart(w, warning, k);
    }
  }

  /** A start, the other half of the marker, and a clean stop. */
  lemma HalfMarkerStart(w: World, warning: Warning, k: nat)
    requires Inv(w) && Enabled(w, Start(warning)) && MarkerFree(warning)
    requires 0 < k < |START| && EndsWith(UserText(Content(w.file)), START[..k])
    ensures !AlwaysConserves(w, Start(warning))
  {
    var base, tail := UserText(Content(w.file)), START[k..];
    ShapeText(Content(w.file));
    OtherHalf(k);
    BlockEndsLine(base, warning, tail);
    AppendedTextSurvives(w.file, warning, tail);
    CompletedMarkerIsRefused(base, k);
    AppendThenStop(w, warning, tail);
  }

  lemma AppendThenStop(w: World, warning: Warning, tail: string)
    requires Enabled(w, Start(warning)) && PlanFor(w.file, warning).Some?
    requires var p := PlanFor(w.file, warning).value;
      && AddsNoMarker(p.installed, tail)
      && Remove(Content(CleanedUp(p, Some(p.installed + tail)))).Refused?
    ensures !AlwaysConserves(w, Start(warning))
  {
    var s1 := Step(w, Start(warning));
    var s2 := Step(s1, Append(tail));
    var run := [Append(tail), Stop];
    assert run[1..] == [Stop] && [Stop][1..] == [];
    assert Legal(s2, [Stop]) && CarefulRun(s2, [Stop]) && Run(s2, [Stop]) == Step(s2, Stop);
    assert Legal(s1, run) && CarefulRun(s1, run) && Run(s1, run) == Step(s2, Stop);
    assert !ConservesAfter(w, Start(warning), run);
  }

  lemma OtherHalf(k: nat)
    requires 0 < k < |START|
    ensures var tail := START[k..]; Free(tail, START) && tail != "" && TrimNewline(tail) == tail
  {
    StartText();
    ShortIsFree(START[k..]);
    assert START[k..][0] == START[k];
  }

  /** After the end of a line only what is appended can bring in a marker. */
  lemma LineKeepsApart(a: string, b: string, p: string)
    requires EndsWith(a, "\n") && '\n' !in p && Free(b, p)
    ensures forall i :: 0 <= i < |a + b| && OccursAt(a + b, p, i) ==> OccursAt(a, p, i)
  {
    var s := a + b;
    assert s == "" + a + b && s == a + b + "" && s[|a| - 1] == a[|a| - 1..][0] == '\n';
    forall i | 0 <= i < |s| && OccursAt(s, p, i) ensures OccursAt(a, p, i) {
      OccursIn("", a, b, p, i);
      if i >= |a| {
        OccursIn(a, b, "", p, i - |a|);
      } else if |a| < i + |p| {
        OccursChar(s, p, i, |a| - 1 - i);
      }
    }
  }

  lemma JoinEndsWith(a: string, b: string, p: string)
    requires EndsWith(b, p)
    ensures EndsWith(a + b, p)
  {
    assert (a + b)[|a + b| - |p|..] == b[|b| - |p|..];
  }

  lemma BlockEndsLine(base: string, w: Warning, text: string)
    requires Free(text, START)
    ensures AddsNoMarker(Installed(base, w), text)
  {
    StartText();
    JoinEndsWith(LAST_LINE, "\n", "\n");
    JoinEndsWith(START + Middle(w), END, "\n");
    JoinEndsWith(base + Separator(base), Render(w), "\n");
    LineKeepsApart(Installed(base, w), text, START);
  }

  /** A marker at the very end is refused, whatever comes before it. */
  lemma CompletedMarkerIsRefused(base: string, k: nat)
    requires 0 < k < |START| && EndsWith(base, START[..k])
    ensures Remove(base + START[k..]) == Refused
  {
    var front, s := base[..|base| - k], base + START[k..];
    assert s == front + (START[..k] + START[k..]) == front + START;
    assert s[|front|..] == START;
    StartText();
    LastLineText();
    var start := Index(s, START);
    assert OccursAt(s, START, |front|);
    if start < |front| < start + |START| {
      OccursChar(s, START, start, |front| - start);
      OccursChar(s, START, |front|, 0);
    }
  }

  lemma CarelessAppend(w: World, text: string)
    requires Inv(w) && !AddsNoMarker(Content(w.file), text)
    ensures !AlwaysConserves(w, Append(text))
  {
    var content := Content(w.file);
    if Free(content, START) {
      LostToMarker(content, text);
      FreeSays(content);
      LettersAppend(content, text);
    } else {
      var base, warning, tail :| BlockIn(content, base, warning, tail);
      SecondMarker(content, base, warning, tail, text);
    }
    assert TextOf(Append(text)) + Appended([]) == text;
    WrongAtOnce(w, Append(text));
  }

  lemma SecondMarker(content: string, base: string, w: Warning, tail: string, text: string)
    requires BlockIn(content, base, w, tail) && !AddsNoMarker(content, text)
    ensures Remove(content + text) == Refused
  {
    var front := Installed(base, w);
    assert content + text == front + (tail + text);
    RemoveInstalled(base, w, tail + text);
    if Free(tail + text, START) {
      BlockEndsLine(base, w, tail + text);
      OccursInLonger(front, tail, text, START);
    }
  }

  lemma OccursInLonger(a: string, b: string, c: string, p: string)
    requires forall i :: 0 <= i < |a + (b + c)| && OccursAt(a + (b + c), p, i) ==> OccursAt(a, p, i)
    ensures forall i :: 0 <= i < |(a + b) + c| && OccursAt((a + b) + c, p, i) ==> OccursAt(a + b, p, i)
  {
    assert (a + b) + c == a + (b + c) && "" + a + b == a + b;
    forall i | 0 <= i < |(a + b) + c| && OccursAt((a + b) + c, p, i) ensures OccursAt(a + b, p, i) {
      OccursIn("", a, b, p, i);
    }
  }

  /** A marker that is brought in is refused, or text is lost when it is cut out. */
  lemma LostToMarker(content: string, text: string)
    requires Free(content, START) && !AddsNoMarker(content, text)
    ensures Remove(content + text) == Refused || |Said(Some(content + text))| < |Letters(content + text)|
  {
    var all := content + text;
    RemoveExactly(all);
    if Remove(all).Found? {
      StartText();
      CutLosesText(all, START, END, Remove(all).rest);
    }
  }

  lemma CutLosesText(content: string, p: string, e: string, rest: string)
    requires IsCutOf(content, p, e, rest) && p != "" && p[0] != '\n'
    ensures |Letters(rest)| < |Letters(content)|
  {
    var before, inner, after :| CutsAt(content, p, e, before, inner, after) && rest == before + TrimNewline(after);
    LettersOfCut(before, p + inner, after);
  }

  lemma LettersOfCut(before: string, cut: string, after: string)
    requires cut != "" && cut[0] != '\n'
    ensures |Letters(before + TrimNewline(after))| < |Letters(before + cut + after)|
  {
    LettersAppend(before + cut, after);
    LettersAppend(before, cut);
    LettersAppend(before, TrimNewline(after));
    LettersOfTrim(after);
  }

  /**
   Half a marker at the end of the base is harmless exactly when there is none: otherwise some text without a marker,
   appended while the block is there, completes it, and after the clean stop no later start succeeds.
   */
  lemma HalfMarkersMatter(base: string, w: Warning, w': Warning)
    requires Free(base, START) && Clean(w)
    ensures var p := PlanFor(Some(base), w);
      && p.Some?
      && (NoHalfMarker(base) <==>
          forall tail :: tail != "" && Free(tail, START) ==> StartsAgain(p.value, tail, w'))
  {
    RemoveExactly(base);
    var p := PlanFor(Some(base), w).value;
    forall tail | tail != "" && Free(tail, START) ensures NoHalfMarker(base) ==> StartsAgain(p, tail, w') {
      AppendedTextSurvives(Some(base), w, tail);
      if NoHalfMarker(base) {
        TrimFree(tail);
        JoinFree(base, TrimNewline(tail));
        RemoveExactly(base + TrimNewline(tail));
      }
    }
    if !NoHalfMarker(base) {
      var k :| 0 < k < |START| && EndsWith(base, START[..k]);
      OtherHalf(k);
      AppendedTextSurvives(Some(base), w, START[k..]);
      CompletedMarkerIsRefused(base, k);
      assert !StartsAgain(p, START[k..], w');
    }
  }

  /** After a clean stop with the text appended, the next start succeeds. */
  predicate StartsAgain(p: Plan, tail: string, w: Warning) {
    PlanFor(CleanedUp(p, Some(p.installed + tail)), w).Some?
  }
}
