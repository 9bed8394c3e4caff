/**
 * pkg/auth/basic/array.c: a C program whose first argument picks one of two
 * array demonstrations — filling an int array, and reading a double array
 * through a pointer and through the array name.
 */
module ArrayC {
  import opened Text
  import opened CStrings

  const Arr1Name: CString := "arr1"
  const Arr2Name: CString := "arr2"

  /** arr2's `balance` initialiser. */
  const Balance: seq<real> := [1000.0, 2.0, 3.4, 17.0, 50.0]

  const PointerHeading := "使用指针的数组值\n"
  const ArrayHeading := "使用 balance 作为地址的数组值\n"

  /**
   * One printf call: plain text, or `"<prefix>%d) : %f\n"` with an index and
   * a double, kept as the values because `%f` formatting is not modelled.
   */
  datatype Printed = Text(text: string) | Element(prefix: string, index: int, value: real)

  datatype Choice = NeedArgs | Arr1 | Arr2 | NoMatch

  /** `main`'s dispatch: too few arguments, else the first name argv[1] matches, else nothing. */
  function ChoiceOf(args: seq<CString>): Choice
  {
    if |args| <= 1 then NeedArgs
    else if Strncmp(args[1], Arr1Name, |args[1]|) == 0 then Arr1
    else if Strncmp(args[1], Arr2Name, |args[1]|) == 0 then Arr2
    else NoMatch
  }

  /** argv[1] runs arr1 when it is a prefix of "arr1", else arr2 when it is a prefix of "arr2". */
  lemma ChoiceByPrefix(args: seq<CString>)
    ensures |args| <= 1 <==> ChoiceOf(args) == NeedArgs
    ensures |args| > 1 ==>
      (ChoiceOf(args) == Arr1 <==> HasPrefix(Arr1Name, args[1])) &&
      (ChoiceOf(args) == Arr2 <==> !HasPrefix(Arr1Name, args[1]) && HasPrefix(Arr2Name, args[1])) &&
      (ChoiceOf(args) == NoMatch <==> !HasPrefix(Arr1Name, args[1]) && !HasPrefix(Arr2Name, args[1]))
  {
    if |args| > 1 {
      StrncmpPrefix(args[1], Arr1Name);
      StrncmpPrefix(args[1], Arr2Name);
    }
  }

  /** Every prefix of "arr2" is also one of "arr1" except "arr2" itself, so only "arr2" reaches arr2. */
  lemma OnlyFullNameReachesArr2(args: seq<CString>)
    requires |args| > 1
    ensures ChoiceOf(args) == Arr2 <==> args[1] == Arr2Name
  {
    ChoiceByPrefix(args);
    var a := args[1];
    if HasPrefix(Arr2Name, a) && |a| < 4 {
      assert a == Arr2Name[..|a|] == Arr1Name[..|a|];
    }
    if a == Arr2Name {
      assert !HasPrefix(Arr1Name, a) by {
        assert Arr1Name[3] != a[3];
      }
    }
  }

  /** arr1's line for element i, holding i + 100. */
  function EleLine(i: int): Printed
  {
    Text("ele[" + IntString(i) + "] = " + IntString(i + 100) + " \n")
  }

  /** arr1 prints elements 0..9 in index order. */
  function Arr1Output(): seq<Printed>
  {
    seq(10, i => EleLine(i))
  }

  /** arr2 prints every element twice, through the pointer and through the array name. */
  function Arr2Output(): seq<Printed>
  {
    [Text(PointerHeading)] + seq(5, i requires 0 <= i < 5 => Element("*(p + ", i, Balance[i])) +
    [Text(ArrayHeading)] + seq(5, i requires 0 <= i < 5 => Element("*(balance + ", i, Balance[i]))
  }

  /** What the program prints for each choice; a non-matching argument prints nothing. */
  function Output(choice: Choice): seq<Printed>
  {
    match choice
    case NeedArgs => [Text("need func args! \n")]
    case Arr1 => Arr1Output()
    case Arr2 => Arr2Output()
    case NoMatch => []
  }

  /** A C pointer into an array of doubles: the array and an offset. */
  datatype Ptr = Ptr(base: array<real>, offset: int)

  /** `*(p + i)`: the element i places past where p points. */
  function Deref(p: Ptr, i: int): real
    reads p.base
    requires 0 <= p.offset + i < p.base.Length
  {
    p.base[p.offset + i]
  }

  /**
   * C's pointer arithmetic: `*(p + i)` reads the same element as moving p
   * by i first, and a pointer to the start of an array indexes it like the
   * array name does, so `*(balance + i)` is `balance[i]`. Both hold by
   * Deref's definition: the lemma records the identity that lets Arr2Demo
   * treat the pointer walk and the array walk alike.
   */
  lemma PointerWalk(a: array<real>, k: int, i: int)
    requires 0 <= k + i < a.Length
    ensures Deref(Ptr(a, k), i) == Deref(Ptr(a, k + i), 0) == a[k + i]
    ensures k == 0 ==> Deref(Ptr(a, 0), i) == a[i]
  {
  }

  class Program {
    var stdout: seq<Printed>

    constructor ()
      ensures stdout == []
    {
      stdout := [];
    }

    /** `main`: runs the chosen demonstration and returns 0 on every path, silently when nothing matches. */
    method Run(args: seq<CString>) returns (ret: int)
      modifies this
      ensures ret == 0 && stdout == old(stdout) + Output(ChoiceOf(args))
    {
      if |args| <= 1 {
        stdout := stdout + [Text("need func args! \n")];
        return 0;
      }
      if Strncmp(args[1], Arr1Name, |args[1]|) == 0 {
        var _ := Arr1Demo();
        return 0;
      }
      if Strncmp(args[1], Arr2Name, |args[1]|) == 0 {
        Arr2Demo();
        return 0;
      }
      return 0;
    }

    /** `arr1`: fills n[i] = i + 100 for i in 0..9, then prints each element in index order. */
    method Arr1Demo() returns (filled: seq<int>)
      modifies this
      ensures |filled| == 10 && forall i :: 0 <= i < 10 ==> filled[i] == i + 100
      ensures stdout == old(stdout) + Arr1Output()
    {
      var n := new int[10];
      for i := 0 to 10
        invariant forall k :: 0 <= k < i ==> n[k] == k + 100
        invariant stdout == old(stdout)
      {
        n[i] := i + 100;
      }
      for i := 0 to 10
        invariant stdout == old(stdout) + Arr1Output()[..i]
        invariant forall k :: 0 <= k < 10 ==> n[k] == k + 100
      {
        stdout := stdout + [Text("ele[" + IntString(i) + "] = " + IntString(n[i]) + " \n")];
        assert Arr1Output()[..i + 1] == Arr1Output()[..i] + [EleLine(i)];
      }
      assert Arr1Output()[..10] == Arr1Output();
      filled := n[..];
    }

    /** `arr2`: walks balance through `p = balance` and then through the array name. */
    method Arr2Demo()
      modifies this
      ensures stdout == old(stdout) + Arr2Output()
      ensures forall i :: 0 <= i < 5 ==>
        stdout[|old(stdout)| + 1 + i].value == stdout[|old(stdout)| + 7 + i].value == Balance[i]
    {
      var balance := new real[5] [1000.0, 2.0, 3.4, 17.0, 50.0];
      assert balance[..] == Balance;
      var p := Ptr(balance, 0);
      stdout := stdout + [Text(PointerHeading)];
      ghost var walk := seq(5, i requires 0 <= i < 5 => Element("*(p + ", i, Balance[i]));
      for i := 0 to 5
        invariant stdout == old(stdout) + [Text(PointerHeading)] + walk[..i]
        invariant balance[..] == Balance
      {
        stdout := stdout + [Element("*(p + ", i, Deref(p, i))];
        assert walk[..i + 1] == walk[..i] + [walk[i]];
      }
      stdout := stdout + [Text(ArrayHeading)];
      ghost var named := seq(5, i requires 0 <= i < 5 => Element("*(balance + ", i, Balance[i]));
      for i := 0 to 5
        invariant stdout == old(stdout) + [Text(PointerHeading)] + walk + [Text(ArrayHeading)] + named[..i]
        invariant balance[..] == Balance
      {
        stdout := stdout + [Element("*(balance + ", i, balance[i])];
        assert named[..i + 1] == named[..i] + [named[i]];
      }
      assert walk[..5] == walk && named[..5] == named;
    }
  }
}
