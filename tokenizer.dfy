/**
 * `java.util.StringTokenizer` with `returnDelims == false`, as the calendar
 * encoder uses it to split attendee lists: every character of the delimiter
 * string is a delimiter, and a token is a maximal non-empty run of
 * non-delimiter characters (so empty tokens never appear).
 */
module Tokenizer {
  import opened Text

  /** Length of the run of non-delimiters at the start of `s`. */
  function RunLength(s: string, delimiters: string): (n: nat)
    ensures n <= |s|
    ensures forall k | 0 <= k < n :: s[k] !in delimiters
    ensures n < |s| ==> s[n] in delimiters
  {
    if s == [] || s[0] in delimiters then 0 else 1 + RunLength(s[1..], delimiters)
  }

  /** The tokens of `s`, in order. */
  function Tokens(s: string, delimiters: string): seq<string>
    decreases |s|
  {
    if s == [] then []
    else if s[0] in delimiters then Tokens(s[1..], delimiters)
    else
      var n := RunLength(s, delimiters);
      [s[..n]] + Tokens(s[n..], delimiters)
  }

  /** `s` with every delimiter character removed. */
  function RemoveDelimiters(s: string, delimiters: string): string {
    if s == [] then []
    else (if s[0] in delimiters then [] else [s[0]]) + RemoveDelimiters(s[1..], delimiters)
  }

  /** Every token is non-empty and holds no delimiter. */
  lemma {:induction false} TokensAreNonEmptyRuns(s: string, delimiters: string)
    ensures forall t | t in Tokens(s, delimiters) :: |t| > 0 && forall c | c in t :: c !in delimiters
    decreases |s|
  {
    if s != [] {
      if s[0] in delimiters {
        TokensAreNonEmptyRuns(s[1..], delimiters);
      } else {
        var n := RunLength(s, delimiters);
        TokensAreNonEmptyRuns(s[n..], delimiters);
      }
    }
  }

  lemma {:induction false} RemoveDelimitersAppend(a: string, b: string, delimiters: string)
    ensures RemoveDelimiters(a + b, delimiters) == RemoveDelimiters(a, delimiters) + RemoveDelimiters(b, delimiters)
  {
    if a == [] {
      assert a + b == b;
    } else {
      assert (a + b)[0] == a[0];
      assert (a + b)[1..] == a[1..] + b;
      RemoveDelimitersAppend(a[1..], b, delimiters);
    }
  }

  lemma {:induction false} RemoveDelimitersOfRun(s: string, delimiters: string)
    requires forall k | 0 <= k < |s| :: s[k] !in delimiters
    ensures RemoveDelimiters(s, delimiters) == s
  {
    if s != [] {
      RemoveDelimitersOfRun(s[1..], delimiters);
    }
  }

  /** Concatenating the tokens gives back the input without its delimiters:
      no character other than a delimiter is lost, none is added, order is kept. */
  lemma {:induction false} TokensConcat(s: string, delimiters: string)
    ensures Concat(Tokens(s, delimiters)) == RemoveDelimiters(s, delimiters)
    decreases |s|
  {
    if s != [] {
      if s[0] in delimiters {
        TokensConcat(s[1..], delimiters);
      } else {
        var n := RunLength(s, delimiters);
        var ts := Tokens(s, delimiters);
        assert ts == [s[..n]] + Tokens(s[n..], delimiters);
        assert ts[1..] == Tokens(s[n..], delimiters);
        TokensConcat(s[n..], delimiters);
        assert s == s[..n] + s[n..];
        RemoveDelimitersAppend(s[..n], s[n..], delimiters);
        RemoveDelimitersOfRun(s[..n], delimiters);
      }
    }
  }

  /** With no delimiter character in it, a non-empty string is one token. */
  lemma NoDelimiterSingleToken(s: string, delimiters: string)
    requires s != []
    requires forall k | 0 <= k < |s| :: s[k] !in delimiters
    ensures Tokens(s, delimiters) == [s]
  {
    var n := RunLength(s, delimiters);
    assert n == |s|;
    assert s[..n] == s;
    assert s[n..] == [];
  }

  /** `RunLength` is the only length with its two defining properties. */
  lemma RunLengthIs(s: string, delimiters: string, m: nat)
    requires m <= |s|
    requires forall k | 0 <= k < m :: s[k] !in delimiters
    requires m < |s| ==> s[m] in delimiters
    ensures RunLength(s, delimiters) == m
  {
  }

  /** A maximal run of non-delimiters starting at `start` is the first token of `s[start..]`. */
  lemma TokensAtRun(s: string, delimiters: string, start: nat, position: nat)
    requires start < position <= |s|
    requires forall k | start <= k < position :: s[k] !in delimiters
    requires position < |s| ==> s[position] in delimiters
    ensures Tokens(s[start..], delimiters) == [s[start..position]] + Tokens(s[position..], delimiters)
  {
    var rest := s[start..];
    assert rest[0] == s[start];
    forall k | 0 <= k < position - start
      ensures rest[k] !in delimiters
    {
      assert rest[k] == s[start + k];
    }
    if position < |s| {
      assert rest[position - start] == s[position];
    }
    RunLengthIs(rest, delimiters, position - start);
    assert rest[..position - start] == s[start..position];
    assert rest[position - start..] == s[position..];
  }

  /** The cursor over a string that a `StringTokenizer` object is. */
  class StringTokenizer {
    const str: string
    const delimiters: string
    var currentPosition: nat

    ghost predicate Valid()
      reads this
    {
      currentPosition <= |str|
    }

    /** The tokens not yet returned by `NextToken`. */
    ghost function Remaining(): seq<string>
      reads this
      requires Valid()
    {
      Tokens(str[currentPosition..], delimiters)
    }

    constructor (str: string, delimiters: string)
      ensures Valid()
      ensures this.str == str && this.delimiters == delimiters
      ensures Remaining() == Tokens(str, delimiters)
    {
      this.str := str;
      this.delimiters := delimiters;
      currentPosition := 0;
      new;
      assert str[0..] == str;
    }

    /** Skips delimiters from `start`: the position of the next non-delimiter, or the end. */
    method SkipDelimiters(start: nat) returns (position: nat)
      requires start <= |str|
      ensures start <= position <= |str|
      ensures position < |str| ==> str[position] !in delimiters
      ensures Tokens(str[position..], delimiters) == Tokens(str[start..], delimiters)
    {
      position := start;
      while position < |str| && str[position] in delimiters
        invariant start <= position <= |str|
        invariant Tokens(str[position..], delimiters) == Tokens(str[start..], delimiters)
      {
        assert str[position..][1..] == str[position + 1..];
        position := position + 1;
      }
    }

    /** Skips non-delimiters from `start`: the position just after the token that starts there. */
    method ScanToken(start: nat) returns (position: nat)
      requires start <= |str|
      ensures start <= position <= |str|
      ensures forall k | start <= k < position :: str[k] !in delimiters
      ensures position < |str| ==> str[position] in delimiters
    {
      position := start;
      while position < |str| && str[position] !in delimiters
        invariant start <= position <= |str|
        invariant forall k | start <= k < position :: str[k] !in delimiters
      {
        position := position + 1;
      }
    }

    method HasMoreTokens() returns (more: bool)
      requires Valid()
      ensures more <==> Remaining() != []
    {
      var position := SkipDelimiters(currentPosition);
      more := position < |str|;
      if more {
        assert str[position..][0] == str[position];
      }
    }

    /** Returns the next token and moves past it. */
    method NextToken() returns (token: string)
      requires Valid() && Remaining() != []
      modifies this
      ensures Valid()
      ensures token == old(Remaining())[0]
      ensures Remaining() == old(Remaining())[1..]
    {
      var start := SkipDelimiters(currentPosition);
      var position := ScanToken(start);
      TokensAtRun(str, delimiters, start, position);
      token := str[start..position];
      currentPosition := position;
    }
  }
}
