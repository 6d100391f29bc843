/** Consumption of build switches from the process's argument list
    (`has_option` in setupinfo.py). The argument list is an object whose
    contents the operation updates in place, as `sys.argv.remove` does. */
module CommandLine {

  /** The argument that stands for the switch `name`. */
  function OptionFlag(name: string): string {
    "--" + name
  }

  /** `s` without its first occurrence of `x`; `s` itself when `x` does not occur. */
  function RemoveFirst(s: seq<string>, x: string): seq<string> {
    if s == [] then []
    else if s[0] == x then s[1..]
    else [s[0]] + RemoveFirst(s[1..], x)
  }

  /** When the first occurrence of `x` is at `i`, exactly that element goes
      and every other element keeps its order. */
  lemma {:induction false} RemoveFirstAt(s: seq<string>, x: string, i: nat)
    requires i < |s| && s[i] == x
    requires forall j :: 0 <= j < i ==> s[j] != x
    ensures RemoveFirst(s, x) == s[..i] + s[i + 1..]
  {
    if i > 0 {
      RemoveFirstAt(s[1..], x, i - 1);
      assert s[1..][..i - 1] == s[1..i];
      assert s[1..][i..] == s[i + 1..];
      assert [s[0]] + s[1..i] == s[..i];
    }
  }

  /** Removing an element that does not occur changes nothing. */
  lemma {:induction false} RemoveFirstAbsent(s: seq<string>, x: string)
    requires x !in s
    ensures RemoveFirst(s, x) == s
  {
    if s != [] {
      assert s == [s[0]] + s[1..];
      RemoveFirstAbsent(s[1..], x);
    }
  }

  /** Exactly one copy of `x` goes when it occurs, none otherwise. */
  lemma {:induction false} RemoveFirstCount(s: seq<string>, x: string)
    ensures multiset(RemoveFirst(s, x)) == multiset(s) - multiset{x}
    ensures |RemoveFirst(s, x)| == if x in s then |s| - 1 else |s|
  {
    if s != [] {
      assert s == [s[0]] + s[1..];
      RemoveFirstCount(s[1..], x);
      if s[0] != x {
        assert x in s <==> x in s[1..];
      }
    }
  }

  /** The process's argument list. */
  class Argv {
    var args: seq<string>

    constructor (args: seq<string>)
      ensures this.args == args
    {
      this.args := args;
    }

    /** `has_option`: whether `--name` is among the arguments; its first
        occurrence is removed. */
    method HasOption(name: string) returns (found: bool)
      modifies this
      ensures found <==> OptionFlag(name) in old(args)
      ensures args == RemoveFirst(old(args), OptionFlag(name))
    {
      var flag := OptionFlag(name);
      var i := 0;
      while i < |args| && args[i] != flag
        invariant 0 <= i <= |args|
        invariant forall j :: 0 <= j < i ==> args[j] != flag
      {
        i := i + 1;
      }
      if i == |args| {
        RemoveFirstAbsent(args, flag);
        return false;
      }
      RemoveFirstAt(args, flag, i);
      args := args[..i] + args[i + 1..];
      return true;
    }
  }
}
