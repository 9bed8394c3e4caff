/**
 * pkg/auth/basic/constant.c: a C program whose first argument picks one of
 * three demonstrations — constants, storage classes (a static counter
 * loop) and arithmetic operators. Standard output is the sequence of
 * strings its printf calls produce, one per call.
 */
module ConstantC {
  import opened Text
  import opened CStrings

  const ConstantFuncName: CString := "constantFunc"
  const SaveClassName: CString := "saveClass"
  const YunsuanfuName: CString := "yunsuanfu"

  const Length := 10
  const Width := 5
  const I1 := 4

  datatype Choice = NeedArgs | ConstantFunc | SaveClass | Yunsuanfu | Invalid(arg: CString)

  /** `main`'s dispatch: too few arguments, else the first name argv[1] matches, else invalid. */
  function ChoiceOf(args: seq<CString>): Choice
  {
    if |args| <= 1 then NeedArgs
    else if Strncmp(args[1], ConstantFuncName, |args[1]|) == 0 then ConstantFunc
    else if Strncmp(args[1], SaveClassName, |args[1]|) == 0 then SaveClass
    else if Strncmp(args[1], YunsuanfuName, |args[1]|) == 0 then Yunsuanfu
    else Invalid(args[1])
  }

  /**
   * argv[1] selects the first name, in the order constantFunc, saveClass,
   * yunsuanfu, of which it is a prefix; without one it is invalid.
   */
  lemma ChoiceByPrefix(args: seq<CString>)
    ensures |args| <= 1 <==> ChoiceOf(args) == NeedArgs
    ensures |args| > 1 ==>
      (ChoiceOf(args) == ConstantFunc <==> HasPrefix(ConstantFuncName, args[1])) &&
      (ChoiceOf(args) == SaveClass <==> !HasPrefix(ConstantFuncName, args[1]) && HasPrefix(SaveClassName, args[1])) &&
      (ChoiceOf(args) == Yunsuanfu <==>
        !HasPrefix(ConstantFuncName, args[1]) && !HasPrefix(SaveClassName, args[1]) && HasPrefix(YunsuanfuName, args[1])) &&
      (ChoiceOf(args).Invalid? <==>
        !HasPrefix(ConstantFuncName, args[1]) && !HasPrefix(SaveClassName, args[1]) && !HasPrefix(YunsuanfuName, args[1]))
  {
    if |args| > 1 {
      StrncmpPrefix(args[1], ConstantFuncName);
      StrncmpPrefix(args[1], SaveClassName);
      StrncmpPrefix(args[1], YunsuanfuName);
    }
  }

  /** The empty argument and "c" both run constantFunc; "s" runs saveClass. */
  lemma ChoiceExamples(prog: CString)
    ensures ChoiceOf([prog, ""]) == ConstantFunc
    ensures ChoiceOf([prog, "c"]) == ConstantFunc
    ensures ChoiceOf([prog, "s"]) == SaveClass
  {
    ChoiceByPrefix([prog, ""]);
    ChoiceByPrefix([prog, "c"]);
    ChoiceByPrefix([prog, "s"]);
  }

  /** A printf of a label, an int and the NEWLINE character after a blank. */
  function IntLine(text: string, v: int): string
  {
    text + IntString(v) + " \n"
  }

  /** What one call of saveClass prints once its static thingy has become t, with the static count c. */
  function SaveClassCall(t: int, c: int): seq<string>
  {
    ["thingy:" + IntString(t) + ", count:" + IntString(c) + " \n", IntLine("I2:", c)]
  }

  /** The output of the first j of the calls `while (count--)` makes, from thingy t0 and count c0. */
  function SaveClassCalls(t0: int, c0: int, j: nat): seq<string>
  {
    Concat((n: nat) => SaveClassCall(t0 + n, c0 - n), j)
  }

  /** The outputs of calls 1..j, one after the other. */
  function Concat<T>(call: nat -> seq<T>, j: nat): seq<T>
  {
    if j == 0 then [] else Concat(call, j - 1) + call(j)
  }

  /** When every call prints two lines, pair i of j calls' output is what call i + 1 prints. */
  lemma {:induction false} ConcatPairs<T>(call: nat -> seq<T>, j: nat)
    requires forall n :: 1 <= n <= j ==> |call(n)| == 2
    ensures |Concat(call, j)| == 2 * j
    ensures forall i :: 0 <= i < j ==> Concat(call, j)[2 * i] == call(i + 1)[0] && Concat(call, j)[2 * i + 1] == call(i + 1)[1]
  {
    if j > 0 {
      ConcatPairs(call, j - 1);
      forall i | 0 <= i < j
        ensures Concat(call, j)[2 * i] == call(i + 1)[0] && Concat(call, j)[2 * i + 1] == call(i + 1)[1]
      {
        PairAt(Concat(call, j - 1), call(j), i);
      }
    }
  }

  /** The j calls print two lines each, the i-th call's pair showing thingy t0 + i + 1 and count c0 - i - 1. */
  lemma SaveClassCallsAt(t0: int, c0: int, j: nat)
    ensures |SaveClassCalls(t0, c0, j)| == 2 * j
    ensures forall i :: 0 <= i < j ==>
      SaveClassCalls(t0, c0, j)[2 * i] == SaveClassCall(t0 + i + 1, c0 - i - 1)[0] &&
      SaveClassCalls(t0, c0, j)[2 * i + 1] == SaveClassCall(t0 + i + 1, c0 - i - 1)[1]
  {
    var call := (n: nat) => SaveClassCall(t0 + n, c0 - n);
    forall n: nat | 1 <= n <= j
      ensures |call(n)| == 2
    {
      assert call(n) == SaveClassCall(t0 + n, c0 - n);
    }
    ConcatPairs(call, j);
  }

  /** Pair i of prev + call: the old pair when i is inside prev, the new call's lines when it comes next. */
  lemma PairAt<T>(prev: seq<T>, call: seq<T>, i: nat)
    requires |call| == 2 && 2 * i <= |prev|
    ensures 2 * i + 2 <= |prev| ==> (prev + call)[2 * i] == prev[2 * i] && (prev + call)[2 * i + 1] == prev[2 * i + 1]
    ensures 2 * i == |prev| ==> (prev + call)[2 * i] == call[0] && (prev + call)[2 * i + 1] == call[1]
  {
  }

  /** One more saveClass call extends the loop's output by that call's two lines. */
  lemma CallsSnoc(out: seq<string>, t0: int, c0: int, k: nat)
    ensures out + SaveClassCalls(t0, c0, k) + SaveClassCall(t0 + k + 1, c0 - k - 1) == out + SaveClassCalls(t0, c0, k + 1)
  {
    Associative(out, SaveClassCalls(t0, c0, k), SaveClassCall(t0 + k + 1, c0 - (k + 1)));
  }

  lemma Associative<T>(a: seq<T>, b: seq<T>, c: seq<T>)
    ensures a + b + c == a + (b + c)
  {
  }

  /**
   * The loop's i-th call prints thingy t0 + i + 1 beside count c0 - i - 1;
   * from the initial statics 5 and 10 that is thingy 6..15 beside count 9..0.
   */
  lemma SaveClassLoopLines(t0: int, c0: nat)
    ensures var s := SaveClassCalls(t0, c0, c0);
      |s| == 2 * c0 &&
      forall i :: 0 <= i < c0 ==>
        s[2 * i] == "thingy:" + IntString(t0 + i + 1) + ", count:" + IntString(c0 - i - 1) + " \n" &&
        s[2 * i + 1] == IntLine("I2:", c0 - i - 1)
  {
    SaveClassCallsAt(t0, c0, c0);
  }

  /** What constantFunc prints: the area 10 * 5 and the constant I1. */
  function ConstantFuncOutput(): seq<string>
  {
    [IntLine("area:", 50), IntLine("const I1:", 4)]
  }

  /** What yunsuanfu prints for a = 21 and b = 10, with `c = a++` giving 21 and the next `c = a--` giving 22. */
  function YunsuanfuOutput(): seq<string>
  {
    [IntLine("21 + 10 = ", 31), IntLine("21 - 10 = ", 11), IntLine("21 * 10 = ", 210),
     IntLine("21 / 10 = ", 2), IntLine("21 % 10 = ", 1), IntLine("21++ = ", 21), IntLine("21-- = ", 22)]
  }

  /** The program's whole output, from the statics thingy and count. */
  function Output(choice: Choice, thingy: int, count: nat): seq<string>
  {
    match choice
    case NeedArgs => ["need func args! \n"]
    case ConstantFunc => ConstantFuncOutput()
    case SaveClass => SaveClassCalls(thingy, count, count)
    case Yunsuanfu => YunsuanfuOutput()
    case Invalid(arg) => ["invalid args[1]: " + arg + " \n"]
  }

  /** The program's static variables and its standard output. */
  class Program {
    var count: int
    var thingy: int
    var stdout: seq<string>

    /** Process start: `static int count = 10` and saveClass's `static int thingy = 5`. */
    constructor ()
      ensures count == 10 && thingy == 5 && stdout == []
    {
      count := 10;
      thingy := 5;
      stdout := [];
    }

    /** `main`: runs the chosen demonstration once and returns 0 on every path. */
    method Run(args: seq<CString>) returns (ret: int)
      requires count >= 0
      modifies this
      ensures ret == 0
      ensures stdout == old(stdout) + Output(ChoiceOf(args), old(thingy), old(count))
      ensures ChoiceOf(args) == SaveClass ==> thingy == old(thingy) + old(count) && count == -1
      ensures ChoiceOf(args) != SaveClass ==> thingy == old(thingy) && count == old(count)
    {
      if |args| <= 1 {
        stdout := stdout + ["need func args! \n"];
        return 0;
      }
      if Strncmp(args[1], ConstantFuncName, |args[1]|) == 0 {
        ConstantFuncDemo();
        return 0;
      }
      if Strncmp(args[1], SaveClassName, |args[1]|) == 0 {
        SaveClassLoop();
        return 0;
      }
      if Strncmp(args[1], YunsuanfuName, |args[1]|) == 0 {
        YunsuanfuDemo();
        return 0;
      }
      stdout := stdout + ["invalid args[1]: " + args[1] + " \n"];
      return 0;
    }

    /** `constantFunc`: prints LENGTH * WIDTH and I1. */
    method ConstantFuncDemo()
      modifies this
      ensures stdout == old(stdout) + ConstantFuncOutput()
      ensures count == old(count) && thingy == old(thingy)
    {
      var area := Length * Width;
      stdout := stdout + [IntLine("area:", area)];
      stdout := stdout + [IntLine("const I1:", I1)];
    }

    /** `saveClass`: increments the static thingy, then prints it and count twice (the "I2" line prints count). */
    method SaveClassStep()
      modifies this
      ensures thingy == old(thingy) + 1 && count == old(count)
      ensures stdout == old(stdout) + SaveClassCall(old(thingy) + 1, count)
    {
      thingy := thingy + 1;
      stdout := stdout + ["thingy:" + IntString(thingy) + ", count:" + IntString(count) + " \n"];
      stdout := stdout + [IntLine("I2:", count)];
    }

    /** `while (count--) saveClass();`: count calls, leaving count at -1. */
    method SaveClassLoop()
      requires count >= 0
      modifies this
      ensures stdout == old(stdout) + SaveClassCalls(old(thingy), old(count), old(count))
      ensures thingy == old(thingy) + old(count) && count == -1
    {
      ghost var t0, c0 := thingy, count;
      var test := count;
      count := count - 1;
      while test != 0
        invariant 0 <= test <= c0 && count == test - 1
        invariant thingy == t0 + (c0 - test)
        invariant stdout == old(stdout) + SaveClassCalls(t0, c0, c0 - test)
        decreases test
      {
        SaveClassIteration(old(stdout), t0, c0, c0 - test);
        test := count;
        count := count - 1;
      }
    }

    /** One pass of the saveClass loop, after k earlier passes. */
    method SaveClassIteration(ghost out: seq<string>, ghost t0: int, ghost c0: int, ghost k: nat)
      requires thingy == t0 + k && count == c0 - k - 1
      requires stdout == out + SaveClassCalls(t0, c0, k)
      modifies this
      ensures thingy == t0 + k + 1 && count == c0 - k - 1
      ensures stdout == out + SaveClassCalls(t0, c0, k + 1)
    {
      SaveClassStep();
      CallsSnoc(out, t0, c0, k);
    }

    /** `yunsuanfu`: the five arithmetic operators, then post-increment and post-decrement. */
    method YunsuanfuDemo()
      modifies this
      ensures stdout == old(stdout) + YunsuanfuOutput()
      ensures count == old(count) && thingy == old(thingy)
    {
      var a := 21;
      var b := 10;
      var c := a + b;
      stdout := stdout + [IntLine("21 + 10 = ", c)];
      c := a - b;
      stdout := stdout + [IntLine("21 - 10 = ", c)];
      c := a * b;
      stdout := stdout + [IntLine("21 * 10 = ", c)];
      // Both operands are positive, so C's truncating division and Dafny's agree.
      c := a / b;
      stdout := stdout + [IntLine("21 / 10 = ", c)];
      c := a % b;
      stdout := stdout + [IntLine("21 % 10 = ", c)];
      c := a;
      a := a + 1;
      stdout := stdout + [IntLine("21++ = ", c)];
      c := a;
      a := a - 1;
      stdout := stdout + [IntLine("21-- = ", c)];
    }
  }
}
