/**
 * The pure string helpers of `LogHelper`: the null-or-empty test, joining a
 * folder and a file name into a path, and rendering objects and string
 * arrays as text.
 */
module LogHelper {
  import opened JavaLang

  /** `File.separator` on Android. */
  const Separator: string := "/"

  /** `isNullOrEmpty(string)`. */
  predicate IsNullOrEmpty(s: JString)
    ensures IsNullOrEmpty(s) <==> s == None || s == Some("")
  {
    s.None? || |s.value| == 0
  }

  /**
   * `pathString(parentFolder, fileName)`: a missing folder gives the file name
   * and a missing file name gives the folder; a folder that already ends with
   * the file name, or a file name that already starts with the folder, is
   * returned as it is; otherwise the two are concatenated, with a separator
   * inserted only when neither side has one at the junction.
   */
  function PathString(parent: JString, file: JString): (r: JString)
    ensures IsNullOrEmpty(parent) ==> r == file
    ensures !IsNullOrEmpty(parent) && IsNullOrEmpty(file) ==> r == parent
    ensures !IsNullOrEmpty(parent) && !IsNullOrEmpty(file) ==>
      && r.Some?
      && StartsWith(r.value, parent.value)
      && EndsWith(r.value, file.value)
      && |r.value| <= |parent.value| + |Separator| + |file.value|
  {
    if IsNullOrEmpty(parent) then file
    else if IsNullOrEmpty(file) then parent
    else if EndsWith(parent.value, file.value) then parent
    else if StartsWith(file.value, parent.value) then file
    else if EndsWith(parent.value, Separator) || StartsWith(file.value, Separator) then
      Some(parent.value + file.value)
    else
      Some(parent.value + Separator + file.value)
  }

  /** Whether `PathString` joins the two sides (neither contains the other at the junction). */
  predicate Joins(parent: string, file: string) {
    && |parent| > 0 && |file| > 0
    && !EndsWith(parent, file) && !StartsWith(file, parent)
  }

  /** The overlap checks come before any separator handling. */
  lemma PathStringOverlap(parent: string, file: string)
    requires |parent| > 0 && |file| > 0
    ensures EndsWith(parent, file) ==> PathString(Some(parent), Some(file)) == Some(parent)
    ensures !EndsWith(parent, file) && StartsWith(file, parent) ==> PathString(Some(parent), Some(file)) == Some(file)
  {
  }

  /**
   * At the junction of a joined path: exactly one separator when neither side
   * or just one side brings one, and a doubled separator when both do; the
   * folder and the file name are kept whole around it.
   */
  lemma PathStringJunction(parent: string, file: string)
    requires Joins(parent, file)
    ensures var r := PathString(Some(parent), Some(file)).value;
      var pSep := EndsWith(parent, Separator);
      var fSep := StartsWith(file, Separator);
      && r[..|parent|] == parent
      && (if pSep || fSep then r[|parent|..] == file else r[|parent|] == '/' && r[|parent| + 1..] == file)
      && (pSep && fSep ==> r[|parent| - 1..|parent| + 1] == "//")
      && (pSep != fSep ==> |r| == |parent| + |file| && (r[|parent| - 1] == '/') != (r[|parent|] == '/'))
  {
    var r := PathString(Some(parent), Some(file)).value;
    if EndsWith(parent, Separator) {
      assert parent[|parent| - 1] == '/';
    }
    if StartsWith(file, Separator) {
      assert file[0] == '/';
    }
    if EndsWith(parent, Separator) || StartsWith(file, Separator) {
      assert r == parent + file;
      assert r[|parent| - 1] == parent[|parent| - 1];
      assert r[|parent|] == file[0];
    }
  }

  /** Joining a folder with a path already joined under it changes nothing. */
  lemma PathStringIdempotent(parent: string, file: string)
    requires |parent| > 0 && |file| > 0
    ensures PathString(Some(parent), PathString(Some(parent), Some(file))) == PathString(Some(parent), Some(file))
  {
    var r := PathString(Some(parent), Some(file)).value;
    if Joins(parent, file) {
      assert |r| > |parent|;
      assert !EndsWith(parent, r);
      assert StartsWith(r, parent);
    }
  }

  /** `toString(Object)`: the object's own text, or the empty string for null. */
  function ObjectToString(o: JString): (r: string)
    ensures o.Some? ==> r == o.value
    ensures r == "" <==> IsNullOrEmpty(o)
  {
    if o.None? then "" else o.value
  }

  /** What `StringBuilder.append(String)` adds for one element: its text, or "null". */
  function AppendedText(s: JString): string {
    if s.None? then "null" else s.value
  }

  /** What follows each element: a newline in newline mode, otherwise one space. */
  function Terminator(withNewLine: bool): string {
    if withNewLine then "\n" else " "
  }

  /** Every element's text followed by `term`, in order. */
  function Terminated(strings: seq<JString>, term: string): string
    decreases |strings|
  {
    if |strings| == 0 then ""
    else Terminated(strings[..|strings| - 1], term) + AppendedText(strings[|strings| - 1]) + term
  }

  /** The text of `toString(strings, withNewLine)`: empty for a null array. */
  function JoinedStrings(strings: Option<seq<JString>>, withNewLine: bool): string {
    match strings
    case None => ""
    case Some(ss) => (if withNewLine then "\n" else "") + Terminated(ss, Terminator(withNewLine))
  }

  /** `toString(String[], boolean)`: the `StringBuilder` loop. */
  method ToStringArray(strings: Option<seq<JString>>, withNewLine: bool) returns (r: string)
    ensures r == JoinedStrings(strings, withNewLine)
  {
    r := "";
    if strings.Some? {
      var ss := strings.value;
      if withNewLine {
        r := r + "\n";
      }
      ghost var lead := r;
      var i := 0;
      while i < |ss|
        invariant 0 <= i <= |ss|
        invariant r == lead + Terminated(ss[..i], Terminator(withNewLine))
      {
        r := r + AppendedText(ss[i]);
        if withNewLine {
          r := r + "\n";
        } else {
          r := r + " ";
        }
        assert ss[..i + 1][..i] == ss[..i];
        i := i + 1;
      }
      assert ss[..|ss|] == ss;
    }
  }

  /** `toString(String[])`: the same as the variant without newlines. */
  method ToStringArraySpaced(strings: Option<seq<JString>>) returns (r: string)
    ensures r == JoinedStrings(strings, false)
  {
    r := ToStringArray(strings, false);
  }

  /** The total length of the elements' texts. */
  function SumLengths(strings: seq<JString>): nat
    decreases |strings|
  {
    if |strings| == 0 then 0
    else SumLengths(strings[..|strings| - 1]) + |AppendedText(strings[|strings| - 1])|
  }

  /** Rendering a concatenation renders each part. */
  lemma {:induction false} TerminatedAppend(a: seq<JString>, b: seq<JString>, term: string)
    ensures Terminated(a + b, term) == Terminated(a, term) + Terminated(b, term)
    decreases |b|
  {
    if |b| > 0 {
      var ab := a + b;
      assert ab[..|ab| - 1] == a + b[..|b| - 1];
      assert ab[|ab| - 1] == b[|b| - 1];
      TerminatedAppend(a, b[..|b| - 1], term);
    } else {
      assert a + b == a;
    }
  }

  /** Each element adds its text and one terminator character. */
  lemma {:induction false} TerminatedLength(strings: seq<JString>, term: string)
    requires |term| == 1
    ensures |Terminated(strings, term)| == SumLengths(strings) + |strings|
    decreases |strings|
  {
    if |strings| > 0 {
      TerminatedLength(strings[..|strings| - 1], term);
    }
  }

  /**
   * The length of `toString(strings, withNewLine)`: the elements' lengths plus
   * one terminator per element, plus the leading newline in newline mode.
   */
  lemma JoinedStringsLength(strings: seq<JString>, withNewLine: bool)
    ensures |JoinedStrings(Some(strings), withNewLine)| == SumLengths(strings) + |strings| + (if withNewLine then 1 else 0)
  {
    TerminatedLength(strings, Terminator(withNewLine));
  }

  /** The rendering splits around element `k`. */
  lemma TerminatedSplit(strings: seq<JString>, k: nat, term: string)
    requires k < |strings|
    ensures Terminated(strings, term)
      == Terminated(strings[..k], term) + AppendedText(strings[k]) + term + Terminated(strings[k + 1..], term)
  {
    var before, rest := strings[..k], strings[k + 1..];
    assert strings == (before + [strings[k]]) + rest;
    TerminatedAppend(before + [strings[k]], rest, term);
    TerminatedAppend(before, [strings[k]], term);
    assert [strings[k]][..0] == [];
  }

  /**
   * Element `k` stands in the text at the offset given by what precedes it,
   * whole, and is immediately followed by the terminator.
   */
  lemma JoinedStringsElementAt(strings: seq<JString>, withNewLine: bool, k: nat)
    requires k < |strings|
    ensures var out := JoinedStrings(Some(strings), withNewLine);
      var at := (if withNewLine then 1 else 0) + SumLengths(strings[..k]) + k;
      var text := AppendedText(strings[k]);
      && at + |text| < |out|
      && out[at..at + |text|] == text
      && out[at + |text|] == Terminator(withNewLine)[0]
  {
    var term := Terminator(withNewLine);
    var lead := if withNewLine then "\n" else "";
    var before, text, after := Terminated(strings[..k], term), AppendedText(strings[k]), Terminated(strings[k + 1..], term);
    TerminatedSplit(strings, k, term);
    TerminatedLength(strings[..k], term);
    assert |strings[..k]| == k;
    Regroup(lead, before, text, term, after);
    SliceOfConcat(lead + before, text, term + after);
  }

  /** Regrouping five consecutive pieces of text. */
  lemma Regroup(a: string, b: string, c: string, d: string, e: string)
    ensures a + (b + c + d + e) == (a + b) + c + (d + e)
  {
  }

  /** In `head + mid + tail`, `mid` stands right after `head`, and `tail` right after it. */
  lemma SliceOfConcat(head: string, mid: string, tail: string)
    requires |tail| > 0
    ensures var s := head + mid + tail;
      |head| + |mid| < |s| && s[|head|..|head| + |mid|] == mid && s[|head| + |mid|] == tail[0]
  {
  }
}
