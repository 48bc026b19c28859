/**
 * The sysfs attribute tree the handles read and write through
 * ev3dev.io.Sysclass: one text value per (class, instance, attribute).
 */
module Sysfs {
  import opened Wrappers
  import opened JavaLang

  /** The file /sys/class/<cls>/<inst>/<attr>. */
  datatype Key = Key(cls: string, inst: string, attr: string)

  /**
   * Sysclass.getHardwareName(class, subclass, address): the instance whose
   * address matches, or null. Its directory scan is not part of this model.
   */
  type Resolver = (string, string, string) -> Option<string>

  /** The attribute files that exist, with their contents. Shared by every handle. */
  class AttributeStore {
    var attrs: map<Key, string>

    constructor (init: map<Key, string>)
      ensures attrs == init
    {
      attrs := init;
    }

    /** Sysclass.getProperty: the file's text, or IOException if it does not exist. */
    function Read(k: Key): Result<string, Error>
      reads this
    {
      if k in attrs then Success(attrs[k]) else Failure(IOException)
    }

    /** Sysclass.getProperty followed by Integer.parseInt. */
    function ReadInt(k: Key): (r: Result<int32, Error>)
      reads this
      ensures k !in attrs ==> r == Failure(IOException)
      ensures forall n: int32 :: Read(k) == Success(IntToString(n)) ==> r == Success(n)
      ensures k in attrs && !IsNumeral(attrs[k]) ==> r == Failure(NumberFormatException)
      ensures k in attrs && IsNumeral(attrs[k]) && INT_MIN <= NumeralValue(attrs[k]) <= INT_MAX
              ==> r == Success(NumeralValue(attrs[k]))
    {
      match Read(k)
      case Failure(e) => Failure(e)
      case Success(s) => ParseIntToString'(s); ParseInt(s)
    }

    /** Sysclass.getProperty followed by Sysclass.separateSpace. */
    function ReadList(k: Key): (r: Result<seq<string>, Error>)
      reads this
      ensures k !in attrs ==> r == Failure(IOException)
      ensures k in attrs ==> r == Success(Tokens(attrs[k]))
    {
      match Read(k)
      case Failure(e) => Failure(e)
      case Success(s) => Success(Tokens(s))
    }

    /** Sysclass.setProperty: overwrites one file and nothing else. */
    method Write(k: Key, v: string)
      modifies this
      ensures attrs == old(attrs)[k := v]
    {
      attrs := attrs[k := v];
    }
  }

  /** Every int whose text is `s` is what `s` parses to. */
  lemma ParseIntToString'(s: string)
    ensures forall n: int32 :: s == IntToString(n) ==> ParseInt(s) == Success(n)
  {
    forall n: int32 | s == IntToString(n)
      ensures ParseInt(s) == Success(n)
    {
      ParseIntToString(n);
    }
  }

  // ---------------------------------------------------------------------
  // Sysclass.separateSpace, as documented for list attributes: the
  // space-separated tokens, with no empty entries.

  /** A token: non-empty and free of spaces. */
  predicate IsWord(t: string)
  {
    t != [] && forall k | 0 <= k < |t| :: t[k] != ' '
  }

  /** The length of the leading run of non-space characters: the index of the first space, or |s|. */
  function WordLen(s: string): (n: nat)
    ensures n <= |s|
    ensures forall k | 0 <= k < n :: s[k] != ' '
    ensures n == |s| || s[n] == ' '
    decreases |s|
  {
    if s == [] || s[0] == ' ' then 0 else 1 + WordLen(s[1..])
  }

  /** The three properties of WordLen determine it. */
  lemma WordLenUnique(s: string, n: nat)
    requires n <= |s|
    requires forall k | 0 <= k < n :: s[k] != ' '
    requires n == |s| || s[n] == ' '
    ensures WordLen(s) == n
  {
  }

  /** The tokens of `s`, left to right. */
  function Tokens(s: string): (r: seq<string>)
    ensures forall i | 0 <= i < |r| :: IsWord(r[i])
    decreases |s|
  {
    if s == [] then []
    else if s[0] == ' ' then Tokens(s[1..])
    else
      var n := WordLen(s);
      [s[..n]] + Tokens(s[n..])
  }

  /** The tokens joined with single spaces. */
  function Join(ts: seq<string>): string
  {
    if |ts| == 0 then ""
    else if |ts| == 1 then ts[0]
    else ts[0] + " " + Join(ts[1..])
  }

  /** Splitting undoes joining, for any list of tokens. */
  lemma {:induction false} TokensOfJoin(ts: seq<string>)
    requires forall i | 0 <= i < |ts| :: IsWord(ts[i])
    ensures Tokens(Join(ts)) == ts
  {
    if |ts| == 0 {
    } else if |ts| == 1 {
      var t := ts[0];
      WordLenUnique(t, |t|);
      assert t[..|t|] == t;
      assert t[|t|..] == [];
    } else {
      var t, j := ts[0], Join(ts[1..]);
      var x := t + " " + j;
      assert x == Join(ts);
      WordLenUnique(x, |t|);
      assert x[..|t|] == t;
      assert x[|t|..][1..] == j;
      TokensOfJoin(ts[1..]);
      assert ts == [t] + ts[1..];
    }
  }

  /** A trailing space adds no empty token. */
  lemma {:induction false} TokensTrailingSpace(s: string)
    ensures Tokens(s + " ") == Tokens(s)
    decreases |s|
  {
    var x := s + " ";
    if s == [] {
      assert x[1..] == [];
    } else if s[0] == ' ' {
      assert x[1..] == s[1..] + " ";
      TokensTrailingSpace(s[1..]);
    } else {
      var n := WordLen(s);
      WordLenUnique(x, n);
      assert x[..n] == s[..n];
      assert x[n..] == s[n..] + " ";
      TokensTrailingSpace(s[n..]);
    }
  }

  /** The state list "running ramping " has exactly two flags. */
  lemma StateExample()
    ensures Tokens("running ramping ") == ["running", "ramping"]
  {
    var ts := ["running", "ramping"];
    assert IsWord(ts[0]) && IsWord(ts[1]);
    TokensOfJoin(ts);
    assert Join(ts) + " " == "running ramping ";
    TokensTrailingSpace(Join(ts));
  }
}
