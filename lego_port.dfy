/** ev3dev.hardware.ports.LegoPort: one physical port and its lego-port attributes. */
module Ports {
  import opened Wrappers
  import opened JavaLang
  import opened Sysfs

  const SYSTEM_CLASS_NAME: string := "lego-port"

  const PORT_1: int32 := 0
  const PORT_2: int32 := 1
  const PORT_3: int32 := 2
  const PORT_4: int32 := 3
  const PORT_A: int32 := 4
  const PORT_B: int32 := 5
  const PORT_C: int32 := 6
  const PORT_D: int32 := 7

  /** The constructor's range check: below 0 and above 7 both throw InvalidPortException. */
  function CheckPort(port: int32): (r: Outcome<Error>)
    ensures r == Pass <==> 0 <= port <= 7
    ensures r != Pass ==> r == Fail(InvalidPortException)
  {
    if port < 0 then Fail(InvalidPortException)
    else if port > 7 then Fail(InvalidPortException)
    else Pass
  }

  /** The named port constants are exactly the eight ids the constructor accepts. */
  lemma NamedPorts()
    ensures [PORT_1, PORT_2, PORT_3, PORT_4] == [0, 1, 2, 3]
    ensures [PORT_A, PORT_B, PORT_C, PORT_D] == [4, 5, 6, 7]
    ensures forall p: int32 :: CheckPort(p) == Pass <==>
      p in {PORT_1, PORT_2, PORT_3, PORT_4, PORT_A, PORT_B, PORT_C, PORT_D}
  {
  }

  /** The instance directory of port `port`: "port" + port. */
  function Instance(port: int32): string
  {
    "port" + IntToString(port)
  }

  /** Two different ports never share an instance directory. */
  lemma InstanceInjective(a: int32, b: int32)
    requires Instance(a) == Instance(b)
    ensures a == b
  {
    assert IntToString(a) == Instance(a)[4..];
    assert IntToString(b) == Instance(b)[4..];
    IntToStringInjective(a, b);
  }

  class LegoPort {
    const store: AttributeStore
    const port: int32

    constructor (store: AttributeStore, port: int32)
      requires CheckPort(port) == Pass
      ensures this.store == store && this.port == port
    {
      this.store := store;
      this.port := port;
    }

    /** new LegoPort(port): refuses ids outside 0..7, otherwise keeps the id unchanged. */
    static method Open(store: AttributeStore, port: int32) returns (r: Result<LegoPort, Error>)
      ensures r.Failure? <==> port < 0 || port > 7
      ensures r.Failure? ==> r.error == InvalidPortException
      ensures r.Success? ==> fresh(r.value) && r.value.port == port && r.value.store == store
    {
      var check := CheckPort(port);
      if check.Fail? {
        return Failure(check.error);
      }
      var p := new LegoPort(store, port);
      return Success(p);
    }

    function KeyOf(attr: string): Key
    {
      Key(SYSTEM_CLASS_NAME, Instance(port), attr)
    }

    function GetAddress(): (r: Result<string, Error>)
      reads store
      ensures r == store.Read(Key("lego-port", "port" + IntToString(port), "address"))
    {
      store.Read(KeyOf("address"))
    }

    function GetDriverName(): (r: Result<string, Error>)
      reads store
      ensures r == store.Read(Key("lego-port", "port" + IntToString(port), "driver_name"))
    {
      store.Read(KeyOf("driver_name"))
    }

    /** The modes attribute, split by the (as-written) separateSpace. */
    method GetModes() returns (r: Result<seq<string>, Error>)
      ensures store.Read(KeyOf("modes")).Failure? ==> r == Failure(IOException)
      ensures store.Read(KeyOf("modes")).Success? ==> r == SeparatedAsWritten(store.Read(KeyOf("modes")).value)
    {
      var modes := store.Read(KeyOf("modes"));
      if modes.Failure? {
        return Failure(modes.error);
      }
      r := SeparateSpace(modes.value);
    }

    function GetMode(): (r: Result<string, Error>)
      reads store
      ensures r == store.Read(Key("lego-port", "port" + IntToString(port), "mode"))
    {
      store.Read(KeyOf("mode"))
    }

    method SetMode(mode: string)
      modifies store
      ensures store.attrs == old(store.attrs)[KeyOf("mode") := mode]
      ensures GetMode() == Success(mode)
    {
      store.Write(KeyOf("mode"), mode);
    }

    method SetDevice(driver: string)
      modifies store
      ensures store.attrs == old(store.attrs)[KeyOf("set_device") := driver]
    {
      store.Write(KeyOf("set_device"), driver);
    }

    function GetStatus(): (r: Result<string, Error>)
      reads store
      ensures r == store.Read(Key("lego-port", "port" + IntToString(port), "status"))
    {
      store.Read(KeyOf("status"))
    }
  }

  // ---------------------------------------------------------------------
  // LegoPort.separateSpace as written. Three things go wrong: the inner scan
  // starts at 0 every time, so it always finds the FIRST space p; a token is
  // added only when a space follows it, so text without a space (or the last
  // token) gives nothing; and `i = j + 1` followed by the loop's `i++` skips a
  // character. The first pass yields s[0..p] and moves i to p + 2; a second
  // pass then calls substring(p + 2, p) and throws. The copy into a String[]
  // is folded into returning the list.

  /** What separateSpace returns, or throws, for `s`. */
  function SeparatedAsWritten(s: string): Result<seq<string>, Error>
  {
    var p := WordLen(s);
    if p == |s| then Success([])
    else if p + 2 >= |s| then Success([s[..p]])
    else Failure(StringIndexOutOfBoundsException)
  }

  method SeparateSpace(s: string) returns (r: Result<seq<string>, Error>)
    ensures r == SeparatedAsWritten(s)
  {
    var list: seq<string> := [];
    var i := 0;
    while i < |s|
      invariant (i == 0 && list == []) || (WordLen(s) < |s| && i == WordLen(s) + 2 && list == [s[..WordLen(s)]])
      decreases |s| - i
    {
      var j := 0;
      while j < |s|
        invariant 0 <= j <= |s|
        invariant forall k | 0 <= k < j :: s[k] != ' '
      {
        if s[j] == ' ' {
          break;
        }
        j := j + 1;
      }
      WordLenUnique(s, j);
      if j == |s| {
        break;
      }
      if i > j {
        return Failure(StringIndexOutOfBoundsException);
      }
      list := list + [s[i..j]];
      i := j + 1;
      i := i + 1;
    }
    return Success(list);
  }

  /** A string without a space (the empty string and a lone token included) yields no element. */
  lemma {:induction false} NoSpaceNoElements(s: string)
    requires forall k | 0 <= k < |s| :: s[k] != ' '
    ensures SeparatedAsWritten(s) == Success([])
  {
    WordLenUnique(s, |s|);
  }

  /**
   * With the first space at p: the one element is s[0..p] (empty when p = 0)
   * if p + 2 >= |s|; otherwise the call throws.
   */
  lemma {:induction false} FirstSpaceDecides(s: string, p: nat)
    requires p < |s| && s[p] == ' '
    requires forall k | 0 <= k < p :: s[k] != ' '
    ensures p + 2 >= |s| ==> SeparatedAsWritten(s) == Success([s[..p]])
    ensures p + 2 < |s| ==> SeparatedAsWritten(s) == Failure(StringIndexOutOfBoundsException)
  {
    WordLenUnique(s, p);
  }

  /** The as-written tokenizer drops every token after the first, or throws. */
  lemma SeparateSpaceLosesTokens()
    ensures SeparatedAsWritten("a b") == Success(["a"])
    ensures Tokens("a b") == ["a", "b"]
    ensures SeparatedAsWritten("a b c") == Failure(StringIndexOutOfBoundsException)
    ensures Tokens("a b c") == ["a", "b", "c"]
  {
    FirstSpaceDecides("a b", 1);
    FirstSpaceDecides("a b c", 1);
    assert IsWord("a") && IsWord("b") && IsWord("c");
    assert Join(["a", "b"]) == "a b";
    TokensOfJoin(["a", "b"]);
    assert Join(["a", "b", "c"]) == "a b c";
    TokensOfJoin(["a", "b", "c"]);
  }

  /** A space at i contributes no token. */
  lemma TokensAtSpace(s: string, i: nat)
    requires i < |s| && s[i] == ' '
    ensures Tokens(s[i..]) == Tokens(s[i + 1..])
  {
    assert s[i..][1..] == s[i + 1..];
  }

  /** A maximal run of non-spaces s[i..j] is the next token. */
  lemma TokensAtWord(s: string, i: nat, j: nat)
    requires i < j <= |s|
    requires forall k | i <= k < j :: s[k] != ' '
    requires j == |s| || s[j] == ' '
    ensures Tokens(s[i..]) == [s[i..j]] + Tokens(s[j..])
  {
    var t := s[i..];
    WordLenUnique(t, j - i);
    assert t[..j - i] == s[i..j];
    assert t[j - i..] == s[j..];
  }

  /** The end of the run of non-spaces that starts at i. */
  method ScanWord(s: string, i: nat) returns (j: nat)
    requires i <= |s|
    ensures i <= j <= |s|
    ensures forall k | i <= k < j :: s[k] != ' '
    ensures j == |s| || s[j] == ' '
  {
    j := i;
    while j < |s| && s[j] != ' '
      invariant i <= j <= |s|
      invariant forall k | i <= k < j :: s[k] != ' '
    {
      j := j + 1;
    }
  }

  /**
   * separateSpace as evidently intended: every space-separated token, left
   * to right, with no empty entries. The inner scan starts where the token
   * does, a token ended by the end of the text is kept, and the scan resumes
   * right after the space.
   */
  method SplitOnSpaces(s: string) returns (r: seq<string>)
    ensures r == Tokens(s)
  {
    r := [];
    var i := 0;
    while i < |s|
      invariant 0 <= i <= |s|
      invariant r + Tokens(s[i..]) == Tokens(s)
    {
      if s[i] == ' ' {
        TokensAtSpace(s, i);
        i := i + 1;
      } else {
        var j := ScanWord(s, i);
        TokensAtWord(s, i, j);
        assert r + Tokens(s[i..]) == (r + [s[i..j]]) + Tokens(s[j..]);
        r := r + [s[i..j]];
        i := j;
      }
    }
    assert s[i..] == [];
  }
}
