/**
 * The two input handlers of the jQuery plugin file that rewrite an
 * element's text: `numberOnly` (digits only, reverting anything else) and
 * `tabIdent` (Tab indents, Shift+Tab outdents the selected lines).
 */
module PluginEditing {

  import opened Wrappers
  import opened PhpValues

  // ---------------------------------------------------------------------
  // numberOnly

  /** `\d` without the `u` flag: an ASCII digit. */
  predicate IsDigit(c: char)
  {
    '0' <= c <= '9'
  }

  /** `/^\d*$/.test(s)`. */
  predicate AllDigits(s: string)
  {
    forall k :: 0 <= k < |s| ==> IsDigit(s[k])
  }

  /**
   * The handler's rule on the element's `value` and its `oldValue` property
   * (None while the element has no such property): digits are accepted and
   * remembered; anything else reverts to the remembered value, or to "".
   */
  function NumberRule(value: string, oldValue: Option<string>): (r: (string, Option<string>))
    requires oldValue.Some? ==> AllDigits(oldValue.value)
    ensures AllDigits(r.0)
    ensures r.1.Some? ==> AllDigits(r.1.value) && r.1.value == r.0
    ensures r.1.None? ==> r.0 == ""
    ensures r.0 == value <==> AllDigits(value)
    ensures oldValue.Some? ==> r.1.Some?
    ensures AllDigits(value) ==> r == (value, Some(value))
    ensures !AllDigits(value) ==> r == (if oldValue.Some? then (oldValue.value, oldValue) else ("", None))
  {
    if AllDigits(value) then (value, Some(value))
    else if oldValue.Some? then (oldValue.value, oldValue)
    else ("", oldValue)
  }

  /**
   * Handling the field again keeps its value; it changes nothing at all once
   * a value has been remembered (after a revert to "" the next event
   * remembers "").
   */
  lemma NumberRuleStable(value: string, oldValue: Option<string>)
    requires oldValue.Some? ==> AllDigits(oldValue.value)
    ensures var r := NumberRule(value, oldValue);
      && NumberRule(r.0, r.1).0 == r.0
      && (r.1.Some? ==> NumberRule(r.0, r.1) == r)
      && (r.1.None? ==> NumberRule(r.0, r.1) == ("", Some("")))
  {
  }

  /** An input element under `numberOnly`. */
  class NumberField {
    var value: string
    var oldValue: Option<string>

    ghost predicate Valid()
      reads this
    {
      oldValue.Some? ==> AllDigits(oldValue.value)
    }

    constructor (initial: string)
      ensures Valid() && value == initial && oldValue.None?
    {
      value := initial;
      oldValue := None;
    }

    /**
     * A key's character, or pasted text, landing in `value`. Only `keydown`
     * is bound, so the handler runs before the character of its own key
     * lands: what a key press types is seen at the next key press, and a
     * paste made without the keyboard is not seen until then.
     */
    method Type(text: string)
      modifies this`value
      ensures value == text
    {
      value := text;
    }

    /** The `keydown.numbersOnly` handler. */
    method HandleInput()
      requires Valid()
      modifies this
      ensures Valid()
      ensures (value, oldValue) == NumberRule(old(value), old(oldValue))
    {
      if AllDigits(value) {
        oldValue := Some(value);
      } else if oldValue.Some? {
        value := oldValue.value;
      } else {
        value := "";
      }
    }
  }

  // ---------------------------------------------------------------------
  // tabIdent

  /** The element's text and selection. */
  datatype TextState = TextState(value: string, selectionStart: int, selectionEnd: int)

  /** JavaScript clamps a string position into `[0, len]`. */
  function Clamp(i: int, len: nat): (r: nat)
    ensures r <= len
    ensures 0 <= i <= len ==> r == i
  {
    if i < 0 then 0 else if i > len then len else i
  }

  /** The last `c` at or below position `p` of `s`, or -1. */
  function LastAt(s: string, c: char, p: int): (i: int)
    requires -1 <= p < |s|
    ensures -1 <= i <= p
    ensures i >= 0 ==> s[i] == c
    ensures forall k :: i < k <= p && 0 <= k ==> s[k] != c
    decreases p + 1
  {
    if p < 0 then -1 else if s[p] == c then p else LastAt(s, c, p - 1)
  }

  /** `s.lastIndexOf(c, from)`: the search starts at `from` clamped into `[0, len]`. */
  function LastIndexOf(s: string, c: char, from: int): (i: int)
    ensures -1 <= i < |s|
    ensures |s| == 0 ==> i == -1
    ensures |s| > 0 ==> i <= Clamp(from, |s| - 1)
    ensures i >= 0 ==> s[i] == c
    ensures |s| > 0 ==> forall k :: i < k <= Clamp(from, |s| - 1) ==> s[k] != c
  {
    if |s| == 0 then -1 else LastAt(s, c, Clamp(from, |s| - 1))
  }

  /** `s.substring(a, b)`: both ends clamped, swapped when `a > b`. */
  function Substring(s: string, a: int, b: int): (r: string)
    ensures |r| <= |s|
    ensures 0 <= a <= b <= |s| ==> r == s[a..b]
    ensures 0 <= b <= a <= |s| ==> r == s[b..a]
    ensures a <= 0 && |s| <= b ==> r == s
  {
    var x := Clamp(a, |s|);
    var y := Clamp(b, |s|);
    if x <= y then s[x..y] else s[y..x]
  }

  /** `value.lastIndexOf('\n', start - 1) + 1`, as the handler computes the start of the line. */
  function LineStartAsWritten(value: string, start: int): int
  {
    LastIndexOf(value, '\n', start - 1) + 1
  }

  /** The start of the line holding position `start`: just after the last newline before it. */
  function LineStart(value: string, start: nat): (p: nat)
    requires start <= |value|
    ensures p <= start
    ensures p == 0 || value[p - 1] == '\n'
    ensures forall k :: p <= k < start ==> value[k] != '\n'
  {
    if start == 0 then 0
    else if value[start - 1] == '\n' then start
    else LineStart(value, start - 1)
  }

  /** `line.replace(/^(\t| {1,4})/, '')`: one leading tab, or else up to four leading spaces. */
  function Outdent(line: string): (r: string)
    ensures |r| <= |line| && r == line[|line| - |r|..]
    ensures |line| - |r| <= 4
    ensures |line| > 0 && line[0] == '\t' ==> |line| - |r| == 1
    ensures !(|line| > 0 && line[0] == '\t') ==>
      var cut := |line| - |r|;
      && (forall k :: 0 <= k < cut ==> line[k] == ' ')
      && (cut == 4 || cut == |line| || line[cut] != ' ')
  {
    var cut := if |line| > 0 && line[0] == '\t' then 1 else LeadingSpaces(line, 4);
    assert |line[cut..]| == |line| - cut;
    line[cut..]
  }

  /** The number of leading spaces of `s`, at most `n`. */
  function LeadingSpaces(s: string, n: nat): (k: nat)
    ensures k <= n && k <= |s|
    ensures forall j :: 0 <= j < k ==> s[j] == ' '
    ensures k == n || k == |s| || s[k] != ' '
  {
    if n == 0 || |s| == 0 || s[0] != ' ' then 0 else 1 + LeadingSpaces(s[1..], n - 1)
  }

  function Indented(lines: seq<string>): (r: seq<string>)
    ensures |r| == |lines|
    ensures forall i :: 0 <= i < |r| ==> r[i] == "\t" + lines[i]
  {
    seq(|lines|, i requires 0 <= i < |lines| => "\t" + lines[i])
  }

  function Outdented(lines: seq<string>): (r: seq<string>)
    ensures |r| == |lines|
    ensures forall i :: 0 <= i < |r| ==> r[i] == Outdent(lines[i])
  {
    seq(|lines|, i requires 0 <= i < |lines| => Outdent(lines[i]))
  }

  /** The selected text's lines indented (`shift` false) or outdented, joined again. */
  function Modified(segment: string, shift: bool): (r: string)
    ensures shift ==> |r| <= |segment|
    ensures !shift ==> |r| == |segment| + |Explode('\n', segment)|
  {
    var lines := Explode('\n', segment);
    ImplodeExplode('\n', segment);
    if shift then
      OutdentedLength(lines);
      Implode("\n", Outdented(lines))
    else
      IndentedLength(lines);
      Implode("\n", Indented(lines))
  }

  /** The Tab handler as written: the line start comes from `lastIndexOf`. */
  function TabKeyAsWritten(value: string, start: nat, end: nat, shift: bool): (r: TextState)
    ensures 0 <= r.selectionStart <= |value| && r.selectionStart <= r.selectionEnd <= |r.value|
    ensures r.value[..r.selectionStart] == value[..r.selectionStart]
    ensures end <= |value| ==> r.value[r.selectionEnd..] == value[end..]
    ensures start <= end <= |value| && r.selectionStart <= end ==>
      r.value[r.selectionStart..r.selectionEnd] == Modified(value[r.selectionStart..end], shift)
  {
    var selStart := LineStartAsWritten(value, start);
    var modified := Modified(Substring(value, selStart, end), shift);
    TextState(Substring(value, 0, selStart) + modified + Substring(value, end, |value|),
              selStart, selStart + |modified|)
  }

  /**
   * The Tab handler with the start of the line found without `lastIndexOf`'s
   * clamping: the lines from the one holding the selection start up to the
   * selection end are rewritten, and the new selection covers them.
   */
  function TabKey(value: string, start: nat, end: nat, shift: bool): (r: TextState)
    requires start <= end <= |value|
    ensures var p := LineStart(value, start); var m := Modified(value[p..end], shift);
      && r.selectionStart == p
      && r.selectionEnd == p + |m|
      && |r.value| == |value| - (end - p) + |m|
      && r.value[..p] == value[..p]
      && r.value[p..p + |m|] == m
      && r.value[p + |m|..] == value[end..]
  {
    var selStart := LineStart(value, start);
    var modified := Modified(value[selStart..end], shift);
    TextState(value[..selStart] + modified + value[end..], selStart, selStart + |modified|)
  }

  lemma {:induction false} IndentedLength(lines: seq<string>)
    requires |lines| >= 1
    ensures |Implode("\n", Indented(lines))| == |Implode("\n", lines)| + |lines|
    decreases |lines|
  {
    if |lines| > 1 {
      assert Indented(lines)[1..] == Indented(lines[1..]);
      IndentedLength(lines[1..]);
    }
  }

  lemma {:induction false} OutdentedLength(lines: seq<string>)
    ensures |Implode("\n", Outdented(lines))| <= |Implode("\n", lines)|
    decreases |lines|
  {
    if |lines| > 1 {
      assert Outdented(lines)[1..] == Outdented(lines[1..]);
      OutdentedLength(lines[1..]);
    }
  }

  /**
   * Tab puts one tab in front of every selected line: the lines of the new
   * text are the old lines, each indented, so their number is kept and the
   * text grows by one character per line.
   */
  lemma IndentKeepsLines(segment: string)
    ensures Explode('\n', Modified(segment, false)) == Indented(Explode('\n', segment))
    ensures |Modified(segment, false)| == |segment| + |Explode('\n', segment)|
  {
    var lines := Explode('\n', segment);
    forall l | l in Indented(lines) ensures '\n' !in l {
      var i :| 0 <= i < |lines| && Indented(lines)[i] == l;
      assert lines[i] in lines;
      assert l == "\t" + lines[i];
    }
    ExplodeImplode('\n', Indented(lines));
    IndentedLength(lines);
    ImplodeExplode('\n', segment);
  }

  /** Shift+Tab removes at most a little from each line, so the text never grows. */
  lemma OutdentKeepsLines(segment: string)
    ensures |Explode('\n', Modified(segment, true))| == |Explode('\n', segment)|
    ensures |Modified(segment, true)| <= |segment|
  {
    var lines := Explode('\n', segment);
    forall l | l in Outdented(lines) ensures '\n' !in l {
      var i :| 0 <= i < |lines| && Outdented(lines)[i] == l;
      assert lines[i] in lines;
      assert l == lines[i][|lines[i]| - |l|..];
      forall k | 0 <= k < |l| ensures l[k] != '\n' {
        assert l[k] == lines[i][|lines[i]| - |l| + k];
      }
    }
    ExplodeImplode('\n', Outdented(lines));
    OutdentedLength(lines);
    ImplodeExplode('\n', segment);
  }

  /** Outdenting the indented lines gives the original text back. */
  lemma OutdentUndoesIndent(segment: string)
    ensures Modified(Modified(segment, false), true) == segment
  {
    var lines := Explode('\n', segment);
    IndentKeepsLines(segment);
    assert Outdented(Indented(lines)) == lines by {
      forall i | 0 <= i < |lines| ensures Outdented(Indented(lines))[i] == lines[i] {
        assert Outdent("\t" + lines[i]) == lines[i];
      }
    }
    ImplodeExplode('\n', segment);
  }

  /** Shift+Tab undoes Tab on the same lines, and selects them as before. */
  lemma TabThenShiftTab(value: string, start: nat, end: nat)
    requires start <= end <= |value|
    ensures var once := TabKey(value, start, end, false);
      && 0 <= once.selectionStart <= once.selectionEnd <= |once.value|
      && TabKey(once.value, once.selectionStart, once.selectionEnd, true)
         == TextState(value, LineStart(value, start), end)
  {
    var p := LineStart(value, start);
    var segment := value[p..end];
    var m := Modified(segment, false);
    var w := value[..p] + m + value[end..];
    assert TabKey(value, start, end, false) == TextState(w, p, p + |m|);
    Splice(value, p, end, m);
    assert LineStart(w, p) == p by {
      assert p > 0 ==> w[p - 1] == value[p - 1];
    }
    OutdentUndoesIndent(segment);
    assert TabKey(w, p, p + |m|, true) == TextState(w[..p] + segment + w[p + |m|..], p, p + |segment|);
  }

  /** The pieces of a spliced text, and the text the splice replaced. */
  lemma Splice(value: string, p: nat, end: nat, m: string)
    requires p <= end <= |value|
    ensures var w := value[..p] + m + value[end..];
      && |w| == |value| - (end - p) + |m|
      && w[..p] == value[..p] && w[p..p + |m|] == m && w[p + |m|..] == value[end..]
      && value[..p] + value[p..end] + value[end..] == value
  {
  }

  /** Where the start of the selection is not at the very beginning before a newline, both agree. */
  lemma AsWrittenAgrees(value: string, start: nat, end: nat, shift: bool)
    requires start <= end <= |value|
    requires start > 0 || value == [] || value[0] != '\n'
    ensures TabKeyAsWritten(value, start, end, shift) == TabKey(value, start, end, shift)
  {
    LineStartAgrees(value, start);
    var p := LineStart(value, start);
    assert Substring(value, p, end) == value[p..end];
    assert Substring(value, 0, p) == value[..p];
    assert Substring(value, end, |value|) == value[end..];
  }

  lemma LineStartAgrees(value: string, start: nat)
    requires start <= |value|
    requires start > 0 || value == [] || value[0] != '\n'
    ensures LineStartAsWritten(value, start) == LineStart(value, start)
  {
    var p := LineStart(value, start);
    if value != [] {
      var q := Clamp(start - 1, |value| - 1);
      var i := LastAt(value, '\n', q);
      if start > 0 {
        assert q == start - 1;
        assert i >= 0 ==> i < p;
        assert p > 0 ==> p - 1 <= i;
      } else {
        assert q == 0 && value[0] != '\n';
      }
    }
  }

  /**
   * With the caret at position 0 of a text that starts with a newline, the
   * handler as written takes the line start to be 1, past the caret, and the
   * swapped `substring` duplicates the newline.
   */
  lemma AsWrittenDuplicatesNewline()
    ensures TabKeyAsWritten("\nabc", 0, 0, false) == TextState("\n\t\n\t\nabc", 1, 4)
    ensures TabKey("\nabc", 0, 0, false) == TextState("\t\nabc", 0, 1)
  {
    AsWrittenAtStart();
    CorrectedAtStart();
  }

  lemma AsWrittenAtStart()
    ensures TabKeyAsWritten("\nabc", 0, 0, false) == TextState("\n\t\n\t\nabc", 1, 4)
  {
    var v := "\nabc";
    assert LineStartAsWritten(v, 0) == 1 by {
      assert LastAt(v, '\n', 0) == 0;
    }
    assert Substring(v, 1, 0) == "\n";
    IndentNewline();
    assert Substring(v, 0, 1) == "\n";
    assert Substring(v, 0, |v|) == v;
    assert "\n" + "\t\n\t" + v == "\n\t\n\t\nabc";
  }

  lemma CorrectedAtStart()
    ensures TabKey("\nabc", 0, 0, false) == TextState("\t\nabc", 0, 1)
  {
    var v := "\nabc";
    assert LineStart(v, 0) == 0;
    assert v[0..0] == "";
    IndentEmpty();
    assert v[..0] + "\t" + v[0..] == "\t\nabc";
  }

  /** Tab on a selection that is just a newline indents both (empty) lines. */
  lemma IndentNewline()
    ensures Modified("\n", false) == "\t\n\t"
  {
    assert Explode('\n', "\n") == ["", ""] by {
      assert IndexOf("\n", '\n') == 0;
      assert "\n"[1..] == "";
    }
    assert "\t" + "" == "\t";
    assert Indented(["", ""]) == ["\t", "\t"];
    assert Implode("\n", ["\t", "\t"]) == "\t\n\t";
  }

  /** Tab on an empty selection inserts one tab. */
  lemma IndentEmpty()
    ensures Modified("", false) == "\t"
  {
    assert Explode('\n', "") == [""];
    assert "\t" + "" == "\t";
    assert Indented([""]) == ["\t"];
  }

  /** A textarea under `tabIdent`. */
  class TextArea {
    var value: string
    var selectionStart: nat
    var selectionEnd: nat

    ghost predicate Valid()
      reads this
    {
      selectionStart <= selectionEnd <= |value|
    }

    function State(): TextState
      reads this
    {
      TextState(value, selectionStart, selectionEnd)
    }

    constructor (text: string)
      ensures Valid() && value == text && selectionStart == 0 && selectionEnd == 0
    {
      value := text;
      selectionStart, selectionEnd := 0, 0;
    }

    /** The `keydown.tabIndet` handler: any key but Tab is left alone. */
    method KeyDown(key: string, shift: bool)
      requires Valid()
      modifies this
      ensures Valid()
      ensures key != "Tab" ==> State() == old(State())
      ensures key == "Tab" ==> State() == TabKey(old(value), old(selectionStart), old(selectionEnd), shift)
      ensures key == "Tab" && (old(selectionStart) > 0 || old(value) == [] || old(value)[0] != '\n') ==>
        State() == TabKeyAsWritten(old(value), old(selectionStart), old(selectionEnd), shift)
    {
      if key != "Tab" {
        return;
      }
      ghost var before := State();
      var selStart := LineStart(value, selectionStart);
      var selEnd := selectionEnd;
      var modified := Modified(value[selStart..selEnd], shift);
      value := value[..selStart] + modified + value[selEnd..];
      selectionStart := selStart;
      selectionEnd := selStart + |modified|;
      assert State() == TabKey(before.value, before.selectionStart, before.selectionEnd, shift);
      if before.selectionStart > 0 || before.value == [] || before.value[0] != '\n' {
        AsWrittenAgrees(before.value, before.selectionStart, before.selectionEnd, shift);
      }
    }
  }
}
