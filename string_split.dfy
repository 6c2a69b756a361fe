/** The hand-written string splitter of the Wavefront loader
    (StringSplitWithCount): a counting pass sizes the result array and a
    second pass fills it with the non-empty pieces between separators. */
module StringSplit {

  /** True when no character of w is sep. */
  predicate NoSep(w: seq<char>, sep: char) {
    forall j :: 0 <= j < |w| ==> w[j] != sep
  }

  /** True when s[lo..hi] holds no sep. */
  predicate RunFree(s: seq<char>, sep: char, lo: nat, hi: nat)
    requires lo <= hi <= |s|
  {
    forall j :: lo <= j < hi ==> s[j] != sep
  }

  /** The length of the longest prefix of s that holds no sep: the position of
      the first sep, or |s| when there is none. */
  function RunLength(s: seq<char>, sep: char): (k: nat)
    ensures k <= |s|
    ensures forall j :: 0 <= j < k ==> s[j] != sep
    ensures k < |s| ==> s[k] == sep
  {
    if s == [] || s[0] == sep then 0 else 1 + RunLength(s[1..], sep)
  }

  /** Reference definition of splitting: skip separators, then take the
      maximal separator-free run, and repeat. */
  function Split(s: seq<char>, sep: char): seq<seq<char>>
    decreases |s|
  {
    if s == [] then []
    else if s[0] == sep then Split(s[1..], sep)
    else
      var k := RunLength(s, sep);
      [s[..k]] + Split(s[k..], sep)
  }

  /** What Split makes of one separator-free run: nothing when it is empty. */
  function Piece(w: seq<char>): seq<seq<char>> {
    if w == [] then [] else [w]
  }

  /** The concatenation of a list of strings. */
  function Concat(parts: seq<seq<char>>): seq<char> {
    if parts == [] then [] else parts[0] + Concat(parts[1..])
  }

  /** s with every occurrence of sep removed. */
  function Without(s: seq<char>, sep: char): seq<char> {
    if s == [] then []
    else (if s[0] == sep then [] else [s[0]]) + Without(s[1..], sep)
  }

  lemma RunLengthIs(s: seq<char>, sep: char, k: nat)
    requires k <= |s| && forall j :: 0 <= j < k ==> s[j] != sep
    requires k < |s| ==> s[k] == sep
    ensures RunLength(s, sep) == k
  {
  }

  /** Every piece is non-empty and holds no separator. */
  lemma {:induction false} SplitPartsWellFormed(s: seq<char>, sep: char)
    ensures forall p :: p in Split(s, sep) ==> p != [] && sep !in p
    decreases |s|
  {
    if s == [] {
    } else if s[0] == sep {
      SplitPartsWellFormed(s[1..], sep);
    } else {
      var k := RunLength(s, sep);
      SplitPartsWellFormed(s[k..], sep);
      assert sep !in s[..k] by {
        forall j | 0 <= j < k ensures s[..k][j] != sep {
          assert s[..k][j] == s[j];
        }
      }
    }
  }

  /** A non-empty separator-free string is its own only piece. */
  lemma SplitRun(w: seq<char>, sep: char)
    requires NoSep(w, sep)
    ensures Split(w, sep) == Piece(w)
  {
    if w != [] {
      assert w[..|w|] == w;
      RunLengthIs(w, sep, |w|);
      assert w[|w|..] == [];
    }
  }

  /** A separator cuts the string into two independently split halves. */
  lemma {:induction false} SplitAround(a: seq<char>, b: seq<char>, sep: char)
    ensures Split(a + [sep] + b, sep) == Split(a, sep) + Split(b, sep)
    decreases |a|
  {
    var s := a + [sep] + b;
    if a == [] {
      assert s[1..] == b;
    } else if a[0] == sep {
      assert s[1..] == a[1..] + [sep] + b;
      SplitAround(a[1..], b, sep);
    } else {
      var k := RunLength(a, sep);
      assert s[..k] == a[..k];
      RunLengthIs(s, sep, k);
      assert s[k..] == a[k..] + [sep] + b;
      SplitAround(a[k..], b, sep);
    }
  }

  /** Splitting can be resumed at any position that follows a separator. */
  lemma SplitAtBoundary(s: seq<char>, sep: char, start: nat)
    requires start <= |s|
    requires start == 0 || s[start - 1] == sep
    ensures Split(s, sep) == Split(s[..start], sep) + Split(s[start..], sep)
  {
    if start == 0 {
      assert s[start..] == s;
    } else {
      assert s == s[..start - 1] + [sep] + s[start..];
      SplitAround(s[..start - 1], s[start..], sep);
      assert s[..start] == s[..start - 1] + [sep] + [];
      SplitAround(s[..start - 1], [], sep);
    }
  }

  /** The pieces of a prefix that ends inside a run: the pieces up to the run's
      start, then the run itself. */
  lemma SplitExtend(s: seq<char>, sep: char, start: nat, i: nat)
    requires start <= i <= |s|
    requires start == 0 || s[start - 1] == sep
    requires RunFree(s, sep, start, i)
    ensures Split(s[..i], sep) == Split(s[..start], sep) + Piece(s[start..i])
  {
    assert NoSep(s[start..i], sep) by {
      forall j | 0 <= j < i - start ensures s[start..i][j] != sep {
        assert s[start..i][j] == s[start + j];
      }
    }
    SplitAtBoundary(s[..i], sep, start);
    assert s[..i][..start] == s[..start];
    assert s[..i][start..] == s[start..i];
    SplitRun(s[start..i], sep);
  }

  /** Reaching a separator at i closes the run that began at start. */
  lemma SplitStep(s: seq<char>, sep: char, start: nat, i: nat)
    requires start <= i < |s| && s[i] == sep
    requires start == 0 || s[start - 1] == sep
    requires RunFree(s, sep, start, i)
    ensures Split(s[..i + 1], sep) == Split(s[..start], sep) + Piece(s[start..i])
    ensures |Split(s[..start], sep)| + |Piece(s[start..i])| <= |Split(s, sep)|
  {
    SplitExtend(s, sep, start, i);
    assert s[..i + 1] == s[..i] + [sep] + [];
    SplitAround(s[..i], [], sep);
    SplitAtBoundary(s, sep, i + 1);
  }

  /** The remaining run after the last separator is the last piece. */
  lemma SplitFinish(s: seq<char>, sep: char, start: nat)
    requires start <= |s|
    requires start == 0 || s[start - 1] == sep
    requires RunFree(s, sep, start, |s|)
    ensures Split(s, sep) == Split(s[..start], sep) + Piece(s[start..])
  {
    assert s[..|s|] == s;
    assert s[start..|s|] == s[start..];
    SplitExtend(s, sep, start, |s|);
  }

  /** Splitting drops exactly the separators: the pieces concatenate to the
      input with its separators removed. */
  lemma {:induction false} SplitKeepsOtherCharacters(s: seq<char>, sep: char)
    ensures Concat(Split(s, sep)) == Without(s, sep)
    decreases |s|
  {
    if s == [] {
    } else if s[0] == sep {
      SplitKeepsOtherCharacters(s[1..], sep);
    } else {
      var k := RunLength(s, sep);
      SplitKeepsOtherCharacters(s[k..], sep);
      assert s == s[..k] + s[k..];
      WithoutAppend(s[..k], s[k..], sep);
      WithoutRun(s[..k], sep);
      assert ([s[..k]] + Split(s[k..], sep))[1..] == Split(s[k..], sep);
    }
  }

  lemma {:induction false} WithoutAppend(a: seq<char>, b: seq<char>, sep: char)
    ensures Without(a + b, sep) == Without(a, sep) + Without(b, sep)
    decreases |a|
  {
    if a != [] {
      assert (a + b)[1..] == a[1..] + b;
      WithoutAppend(a[1..], b, sep);
    } else {
      assert a + b == b;
    }
  }

  lemma {:induction false} WithoutRun(w: seq<char>, sep: char)
    requires NoSep(w, sep)
    ensures Without(w, sep) == w
    decreases |w|
  {
    if w != [] {
      WithoutRun(w[1..], sep);
    }
  }

  /** There are no pieces exactly when the input is empty or made only of
      separators. */
  lemma {:induction false} SplitEmptyIff(s: seq<char>, sep: char)
    ensures Split(s, sep) == [] <==> forall j :: 0 <= j < |s| ==> s[j] == sep
    decreases |s|
  {
    if s == [] {
    } else if s[0] == sep {
      SplitEmptyIff(s[1..], sep);
      assert forall j :: 1 <= j < |s| ==> s[j] == s[1..][j - 1];
    } else {
      assert Split(s, sep) != [];
    }
  }

  /** StringSplitWithCount(content, splitAt) for a one-character separator:
      the source runs the same scan twice, first counting the pieces to size
      the result array, then filling it. With a one-character separator the
      partial-match index of the source is always 0, so a match is
      content[i] == splitAt. */
  method StringSplitWithCount(content: seq<char>, splitAt: char) returns (result: array<seq<char>>)
    ensures result[..] == Split(content, splitAt)
  {
    var partCount := CountParts(content, splitAt);
    result := new seq<char>[partCount];
    FillParts(content, splitAt, result);
  }

  /** The first pass of StringSplitWithCount: the number of pieces. */
  method CountParts(content: seq<char>, splitAt: char) returns (partCount: nat)
    ensures partCount == |Split(content, splitAt)|
  {
    partCount := 0;
    var partStartIndex := 0;
    for i := 0 to |content|
      invariant partStartIndex <= i
      invariant partStartIndex == 0 || content[partStartIndex - 1] == splitAt
      invariant RunFree(content, splitAt, partStartIndex, i)
      invariant partCount == |Split(content[..partStartIndex], splitAt)|
    {
      if content[i] == splitAt {
        var lineEndIndex := i;
        var charCount := lineEndIndex - partStartIndex;
        SplitStep(content, splitAt, partStartIndex, i);
        if charCount > 0 {
          partCount := partCount + 1;
        }
        partStartIndex := i + 1;
      }
    }
    SplitFinish(content, splitAt, partStartIndex);
    if partStartIndex < |content| {
      partCount := partCount + 1;
    }
  }

  /** The second pass of StringSplitWithCount: every piece written in order
      into an array the first pass sized, with no slot left over. */
  method FillParts(content: seq<char>, splitAt: char, result: array<seq<char>>)
    requires result.Length == |Split(content, splitAt)|
    modifies result
    ensures result[..] == Split(content, splitAt)
  {
    var partStartIndex := 0;
    var resultPartIndex := 0;
    for i := 0 to |content|
      invariant partStartIndex <= i
      invariant partStartIndex == 0 || content[partStartIndex - 1] == splitAt
      invariant RunFree(content, splitAt, partStartIndex, i)
      invariant resultPartIndex == |Split(content[..partStartIndex], splitAt)| <= result.Length
      invariant result[..resultPartIndex] == Split(content[..partStartIndex], splitAt)
    {
      if content[i] == splitAt {
        var lineEndIndex := i;
        var charCount := lineEndIndex - partStartIndex;
        SplitStep(content, splitAt, partStartIndex, i);
        if charCount > 0 {
          result[resultPartIndex] := content[partStartIndex..lineEndIndex];
          resultPartIndex := resultPartIndex + 1;
        }
        partStartIndex := i + 1;
      }
    }
    SplitFinish(content, splitAt, partStartIndex);
    if partStartIndex != |content| {
      result[resultPartIndex] := content[partStartIndex..];
    }
    assert result[..] == result[..resultPartIndex] + Piece(content[partStartIndex..]);
  }
}
