/**
 * The line splitting of a row chunk: `text.split('\n').filter(Boolean)`,
 * with JavaScript's `split` for a one-character separator written out.
 */
module Lines {

  /** Index of the first `c` in `s`, or `|s|` when `s` has none. */
  function Find(s: string, c: char): (i: nat)
    ensures i <= |s|
    ensures i < |s| ==> s[i] == c
    ensures forall j | 0 <= j < i :: s[j] != c
    decreases |s|
  {
    if |s| == 0 then 0 else if s[0] == c then 0 else 1 + Find(s[1..], c)
  }

  /**
   * `s.split(sep)`: the maximal separator-free pieces of `s`, in order,
   * including the empty ones between adjacent separators and at either end.
   */
  function Split(s: string, sep: char): (parts: seq<string>)
    ensures |parts| >= 1
    ensures forall p | p in parts :: sep !in p
    decreases |s|
  {
    var i := Find(s, sep);
    if i == |s| then
      [s]
    else
      assert forall j | 0 <= j < i :: s[..i][j] != sep;
      [s[..i]] + Split(s[i + 1..], sep)
  }

  /** `parts.join(sep)`. */
  function Join(parts: seq<string>, sep: char): string {
    if |parts| == 0 then ""
    else if |parts| == 1 then parts[0]
    else parts[0] + [sep] + Join(parts[1..], sep)
  }

  /** `parts.filter(Boolean)`: the non-empty strings, in their order. */
  function DropEmpty(parts: seq<string>): (kept: seq<string>)
    ensures |kept| <= |parts|
    ensures forall k | 0 <= k < |kept| :: kept[k] != "" && kept[k] in parts
    decreases |parts|
  {
    if |parts| == 0 then []
    else if parts[0] == "" then DropEmpty(parts[1..])
    else [parts[0]] + DropEmpty(parts[1..])
  }

  /** The non-empty lines of a row chunk, in order. */
  function ParseChunk(text: string): (lines: seq<string>)
    ensures forall k | 0 <= k < |lines| :: lines[k] != "" && '\n' !in lines[k]
  {
    DropEmpty(Split(text, '\n'))
  }

  /** The first separator of `s` is the unique index before which there is none. */
  lemma FindUnique(s: string, c: char, i: nat)
    requires i <= |s|
    requires i < |s| ==> s[i] == c
    requires forall j | 0 <= j < i :: s[j] != c
    ensures Find(s, c) == i
  {
  }

  /** Splitting and joining again gives back the text. */
  lemma {:induction false} JoinSplit(s: string, sep: char)
    ensures Join(Split(s, sep), sep) == s
    decreases |s|
  {
    var i := Find(s, sep);
    if i < |s| {
      var rest := s[i + 1..];
      JoinSplit(rest, sep);
      assert Split(s, sep) == [s[..i]] + Split(rest, sep);
      assert s == s[..i] + [sep] + rest;
    }
  }

  /** Joining separator-free pieces and splitting again gives back the pieces. */
  lemma {:induction false} SplitJoin(parts: seq<string>, sep: char)
    requires |parts| >= 1
    requires forall k | 0 <= k < |parts| :: sep !in parts[k]
    ensures Split(Join(parts, sep), sep) == parts
    decreases |parts|
  {
    var p := parts[0];
    if |parts| == 1 {
      FindUnique(p, sep, |p|);
    } else {
      var rest := Join(parts[1..], sep);
      var s := p + [sep] + rest;
      assert Join(parts, sep) == s;
      FindUnique(s, sep, |p|);
      assert s[..|p|] == p;
      assert s[|p| + 1..] == rest;
      SplitJoin(parts[1..], sep);
      assert parts == [p] + parts[1..];
    }
  }

  /** A separator in the text splits it into the pieces of either side. */
  lemma {:induction false} SplitAppend(a: string, b: string, sep: char)
    ensures Split(a + [sep] + b, sep) == Split(a, sep) + Split(b, sep)
    decreases |a|
  {
    var s := a + [sep] + b;
    var i := Find(a, sep);
    if i == |a| {
      FindUnique(s, sep, |a|);
      assert s[..|a|] == a;
      assert s[|a| + 1..] == b;
    } else {
      FindUnique(s, sep, i);
      assert s[..i] == a[..i];
      assert s[i + 1..] == a[i + 1..] + [sep] + b;
      SplitAppend(a[i + 1..], b, sep);
    }
  }

  lemma {:induction false} DropEmptyAppend(a: seq<string>, b: seq<string>)
    ensures DropEmpty(a + b) == DropEmpty(a) + DropEmpty(b)
    decreases |a|
  {
    if |a| > 0 {
      assert (a + b)[1..] == a[1..] + b;
      DropEmptyAppend(a[1..], b);
    } else {
      assert a + b == b;
    }
  }

  lemma {:induction false} DropEmptyKeepsNonEmpty(parts: seq<string>)
    requires forall k | 0 <= k < |parts| :: parts[k] != ""
    ensures DropEmpty(parts) == parts
    decreases |parts|
  {
    if |parts| > 0 {
      DropEmptyKeepsNonEmpty(parts[1..]);
    }
  }

  /**
   * Round trip: lines written one after another with '\n' between them
   * are read back as exactly those lines, in order.
   */
  lemma ParseChunkJoin(lines: seq<string>)
    requires forall k | 0 <= k < |lines| :: lines[k] != "" && '\n' !in lines[k]
    ensures ParseChunk(Join(lines, '\n')) == lines
  {
    if |lines| > 0 {
      SplitJoin(lines, '\n');
      DropEmptyKeepsNonEmpty(lines);
    }
  }

  /** The lines before a '\n' come before the lines after it. */
  lemma ParseChunkAppend(a: string, b: string)
    ensures ParseChunk(a + "\n" + b) == ParseChunk(a) + ParseChunk(b)
  {
    SplitAppend(a, b, '\n');
    DropEmptyAppend(Split(a, '\n'), Split(b, '\n'));
  }

  /** A chunk yields no lines exactly when it holds nothing but '\n'. */
  lemma {:induction false} ParseChunkBlank(text: string)
    ensures ParseChunk(text) == [] <==> forall k | 0 <= k < |text| :: text[k] == '\n'
    decreases |text|
  {
    if |text| > 0 {
      var i := Find(text, '\n');
      if text[0] == '\n' {
        assert i == 0;
        assert Split(text, '\n') == [""] + Split(text[1..], '\n');
        ParseChunkBlank(text[1..]);
        assert forall k | 1 <= k < |text| :: text[k] == text[1..][k - 1];
      } else {
        assert i > 0;
        assert text[..i] != "";
      }
    }
  }
}
