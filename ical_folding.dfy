/**
 * `ICalService.formatICalendarDescription`: the line folding of section 3.1 of
 * RFC 5545 as this code applies it to an event description. The fold sequence
 * is a carriage return followed by one space. A description of at most 75
 * characters is returned as it is. A longer one has each newline replaced by
 * the fold sequence, and is then cut into 75-character pieces joined by the
 * fold sequence; how many pieces there are is decided by the length BEFORE the
 * newlines were replaced, so the last piece takes all that is left.
 */
module ICalFolding {
  import opened Text

  const FoldingSymbol: string := "\r "
  const LineMaxLength: nat := 75

  // ---------------------------------------------------------------------------
  // Specification

  /** `s.replaceAll("\n", "\r ")`. */
  function ReplaceNewlines(s: string): string {
    if s == [] then ""
    else (if s[0] == '\n' then FoldingSymbol else [s[0]]) + ReplaceNewlines(s[1..])
  }

  /** The newline substitution is `String.replace` of "\n" by the fold sequence. */
  lemma {:induction false} ReplaceNewlinesIsReplaceAll(s: string)
    ensures ReplaceNewlines(s) == ReplaceAll(s, "\n", FoldingSymbol)
  {
    if s != [] {
      ReplaceNewlinesIsReplaceAll(s[1..]);
      assert s[..1] == [s[0]];
    }
  }

  function NewlineCount(s: string): nat {
    if s == [] then 0 else (if s[0] == '\n' then 1 else 0) + NewlineCount(s[1..])
  }

  /** The first `k` full 75-character lines of `s`. */
  function FullLines(s: string, k: nat): seq<string>
    requires LineMaxLength * k <= |s|
  {
    if k == 0 then []
    else FullLines(s, k - 1) + [s[LineMaxLength * (k - 1)..LineMaxLength * k]]
  }

  /** Number of folds the loop inserts for an input of length `length`:
      ceil(length / 75) - 1. */
  function FoldCount(length: nat): nat
    requires length > 0
  {
    (length - 1) / LineMaxLength
  }

  /** The pieces of the substituted text `s`, counted by the original `length`. */
  function FoldPieces(s: string, length: nat): seq<string>
    requires 0 < length <= |s|
  {
    var k := FoldCount(length);
    FullLines(s, k) + [s[LineMaxLength * k..]]
  }

  /** The pieces joined by `separator`. */
  function JoinWith(pieces: seq<string>, separator: string): string {
    if |pieces| == 0 then ""
    else if |pieces| == 1 then pieces[0]
    else JoinWith(pieces[..|pieces| - 1], separator) + separator + pieces[|pieces| - 1]
  }

  /** What `formatICalendarDescription` returns for `description`. */
  function FoldedDescription(description: string): string {
    if |description| <= LineMaxLength then description
    else
      ReplaceNewlinesLength(description);
      JoinWith(FoldPieces(ReplaceNewlines(description), |description|), FoldingSymbol)
  }

  // ---------------------------------------------------------------------------
  // Properties of the substitution

  /** Each newline becomes two characters; nothing else changes length. */
  lemma {:induction false} ReplaceNewlinesLength(s: string)
    ensures |ReplaceNewlines(s)| == |s| + NewlineCount(s)
  {
    if s != [] {
      ReplaceNewlinesLength(s[1..]);
    }
  }

  /** No newline survives the substitution, and text without one is unchanged. */
  lemma {:induction false} ReplaceNewlinesRemovesNewlines(s: string)
    ensures '\n' !in ReplaceNewlines(s)
    ensures '\n' !in s ==> ReplaceNewlines(s) == s
  {
    if s != [] {
      ReplaceNewlinesRemovesNewlines(s[1..]);
      assert s == [s[0]] + s[1..];
    }
  }

  // ---------------------------------------------------------------------------
  // Properties of the pieces

  lemma {:induction false} FullLinesShape(s: string, k: nat)
    requires LineMaxLength * k <= |s|
    ensures |FullLines(s, k)| == k
    ensures forall j | 0 <= j < k :: FullLines(s, k)[j] == s[LineMaxLength * j..LineMaxLength * (j + 1)]
    ensures Concat(FullLines(s, k)) == s[..LineMaxLength * k]
  {
    if k > 0 {
      FullLinesShape(s, k - 1);
      ConcatAppend(FullLines(s, k - 1), s[LineMaxLength * (k - 1)..LineMaxLength * k]);
      assert s[..LineMaxLength * k]
          == s[..LineMaxLength * (k - 1)] + s[LineMaxLength * (k - 1)..LineMaxLength * k];
    }
  }

  /** The pieces of a long description: there are ceil(L/75) of them for an
      input of length L, each but the last is exactly 75 characters, the last is
      everything after them, and together they are the substituted text. */
  lemma FoldPiecesShape(description: string)
    requires |description| > LineMaxLength
    ensures var s := ReplaceNewlines(description);
            |description| <= |s| &&
            var pieces := FoldPieces(s, |description|);
            && |pieces| == (|description| + LineMaxLength - 1) / LineMaxLength
            && |pieces| - 1 == FoldCount(|description|)
            && (forall j | 0 <= j < |pieces| - 1 :: |pieces[j]| == LineMaxLength)
            && pieces[|pieces| - 1] == s[LineMaxLength * FoldCount(|description|)..]
            && Concat(pieces) == s
  {
    ReplaceNewlinesLength(description);
    var s := ReplaceNewlines(description);
    var k := FoldCount(|description|);
    var last := s[LineMaxLength * k..];
    FullLinesShape(s, k);
    ConcatAppend(FullLines(s, k), last);
    assert s == s[..LineMaxLength * k] + last;
  }

  /** The last piece is 1 to 75 characters of the original length, plus one
      character for every newline in the description. */
  lemma LastPieceLength(description: string)
    requires |description| > LineMaxLength
    ensures var s := ReplaceNewlines(description);
            |description| <= |s| &&
            var pieces := FoldPieces(s, |description|);
            var extra := |description| - LineMaxLength * FoldCount(|description|);
            && 1 <= extra <= LineMaxLength
            && |pieces[|pieces| - 1]| == extra + NewlineCount(description)
  {
    FoldPiecesShape(description);
    ReplaceNewlinesLength(description);
  }

  /** Without newlines, no folded line is longer than 75 characters. */
  lemma WithoutNewlinesPiecesFit(description: string)
    requires |description| > LineMaxLength
    requires '\n' !in description
    ensures var s := ReplaceNewlines(description);
            |description| <= |s| &&
            forall piece | piece in FoldPieces(s, |description|) :: |piece| <= LineMaxLength
  {
    FoldPiecesShape(description);
    LastPieceLength(description);
    assert NewlineCount(description) == 0 by {
      ReplaceNewlinesRemovesNewlines(description);
      ReplaceNewlinesLength(description);
    }
  }

  /** With newlines among the first characters, the last line can exceed 75
      characters: 76 newlines give a last piece of 77. */
  lemma LastPieceCanExceedLineLength()
    ensures exists description: string ::
              |description| > LineMaxLength &&
              |ReplaceNewlines(description)| >= |description| &&
              |Last(FoldPieces(ReplaceNewlines(description), |description|))| > LineMaxLength
  {
    var description := seq(76, _ => '\n');
    AllNewlines(description);
    LastPieceLength(description);
    ReplaceNewlinesLength(description);
  }

  function Last(pieces: seq<string>): string
    requires pieces != []
  {
    pieces[|pieces| - 1]
  }

  lemma {:induction false} AllNewlines(s: string)
    requires forall k | 0 <= k < |s| :: s[k] == '\n'
    ensures NewlineCount(s) == |s|
  {
    if s != [] {
      AllNewlines(s[1..]);
    }
  }

  // ---------------------------------------------------------------------------
  // Properties of the joined result

  lemma {:induction false} JoinWithLength(pieces: seq<string>, separator: string)
    requires pieces != []
    ensures |JoinWith(pieces, separator)| == |Concat(pieces)| + |separator| * (|pieces| - 1)
  {
    if |pieces| > 1 {
      var init := pieces[..|pieces| - 1];
      JoinWithLength(init, separator);
      assert pieces == init + [pieces[|pieces| - 1]];
      ConcatAppend(init, pieces[|pieces| - 1]);
    }
  }

  /** A short description is returned unchanged, newlines included. */
  lemma ShortDescriptionUnchanged(description: string)
    requires |description| <= LineMaxLength
    ensures FoldedDescription(description) == description
  {
  }

  /** A long description is its pieces joined by the fold sequence; exactly
      FoldCount(L) = ceil(L/75) - 1 fold sequences are inserted, so the result
      is 2 characters longer per fold and per newline. */
  lemma LongDescriptionFolded(description: string)
    requires |description| > LineMaxLength
    ensures |description| <= |ReplaceNewlines(description)| &&
            FoldedDescription(description)
              == JoinWith(FoldPieces(ReplaceNewlines(description), |description|), FoldingSymbol)
    ensures |FoldedDescription(description)|
              == |description| + NewlineCount(description) + 2 * FoldCount(|description|)
  {
    ReplaceNewlinesLength(description);
    FoldPiecesShape(description);
    JoinWithLength(FoldPieces(ReplaceNewlines(description), |description|), FoldingSymbol);
  }

  // ---------------------------------------------------------------------------
  // The method

  method FormatICalendarDescription(description: string) returns (formatted: string)
    ensures formatted == FoldedDescription(description)
    ensures |description| <= LineMaxLength ==> formatted == description
  {
    var descriptionLength := |description|;
    if descriptionLength <= LineMaxLength {
      return description;
    }
    ReplaceNewlinesLength(description);
    var s := ReplaceNewlines(description);
    var builder := s[..LineMaxLength];
    var i := LineMaxLength;
    ghost var k := 1;
    while i < descriptionLength
      invariant i == LineMaxLength * k && 1 <= k
      invariant i < descriptionLength
      invariant builder == JoinWith(FullLines(s, k), FoldingSymbol)
      decreases descriptionLength - i
    {
      if i + LineMaxLength < descriptionLength {
        builder := builder + FoldingSymbol + s[i..i + LineMaxLength];
        k := k + 1;
      } else {
        builder := builder + FoldingSymbol + s[i..];
        assert FoldCount(descriptionLength) == k;
        FullLinesShape(s, k);
        assert FoldPieces(s, descriptionLength)[..k] == FullLines(s, k);
        break;
      }
      i := i + LineMaxLength;
    }
    formatted := builder;
  }
}
