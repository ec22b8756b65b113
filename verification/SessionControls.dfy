/** The model choice in a command line: the web client puts it in and reads it back
    (web/src/features/terminal/sessionControls.ts), the session manager reads it again
    (internal/session/manager.go). */
module SessionControls {

  const FLAG := "--model"

  /** The arguments without any flag and the argument after it. */
  function Kept(args: seq<string>): seq<string>
    decreases |args|
  {
    if args == [] then []
    else if args[0] == FLAG then Kept(if |args| == 1 then [] else args[2..])
    else [args[0]] + Kept(args[1..])
  }

  function WithModel(args: seq<string>, model: string): seq<string> {
    Kept(args) + if model == "" then [] else [FLAG, model]
  }

  /** The offset of the first flag, the length of the list if there is none. */
  function FlagAt(args: seq<string>): (i: nat)
    ensures i <= |args| && FLAG !in args[..i] && (i < |args| ==> args[i] == FLAG)
  {
    if args == [] || args[0] == FLAG then 0 else 1 + FlagAt(args[1..])
  }

  function ModelOf(args: seq<string>): string {
    if FlagAt(args) + 1 < |args| then args[FlagAt(args) + 1] else ""
  }

  lemma {:induction false} FlagIsAt(args: seq<string>, i: nat)
    requires i <= |args| && FLAG !in args[..i] && (i < |args| ==> args[i] == FLAG)
    ensures FlagAt(args) == i
  {
    if i > 0 {
      assert args[..i][0] == args[0] && args[1..][..i - 1] == args[..i][1..];
      FlagIsAt(args[1..], i - 1);
    }
  }

  lemma {:induction false} KeptHasNoFlag(args: seq<string>)
    ensures FLAG !in Kept(args)
    decreases |args|
  {
    if args == [] {
    } else if args[0] == FLAG {
      KeptHasNoFlag(if |args| == 1 then [] else args[2..]);
    } else {
      KeptHasNoFlag(args[1..]);
    }
  }

  lemma {:induction false} KeptOfFlagless(a: seq<string>, b: seq<string>)
    requires FLAG !in a
    ensures Kept(a + b) == a + Kept(b)
  {
    if a == [] {
      assert a + b == b;
    } else {
      assert (a + b)[1..] == a[1..] + b;
      KeptOfFlagless(a[1..], b);
    }
  }

  lemma WhereTheFlagIs(args: seq<string>, model: string)
    ensures FlagAt(WithModel(args, model)) == |Kept(args)|
    ensures |WithModel(args, model)| == |Kept(args)| + if model == "" then 0 else 2
  {
    KeptHasNoFlag(args);
    var w, k := WithModel(args, model), |Kept(args)|;
    assert w[..k] == Kept(args);
    FlagIsAt(w, k);
  }

  /** The choice keeps every other argument in its place: without a flag all of them, and around flags what
      comes before the first and, in the same way, what comes after the argument that follows it. */
  lemma {:induction false} OtherArgsAreKept(before: seq<string>, after: seq<string>, old_: string, model: string)
    requires FLAG !in before
    ensures WithModel(before, model) == before + if model == "" then [] else [FLAG, model]
    ensures WithModel(before + [FLAG], model) == WithModel(before, model)
    ensures WithModel(before + [FLAG, old_] + after, model) == before + WithModel(after, model)
  {
    KeptOfFlagless(before, []);
    KeptOfFlagless(before, [FLAG]);
    KeptOfFlagless(before, [FLAG, old_] + after);
    assert before + [FLAG, old_] + after == before + ([FLAG, old_] + after);
    assert ([FLAG, old_] + after)[2..] == after;
    assert before + [] == before;
  }

  /** What was put in is read back, whatever the arguments and the model are. */
  lemma ModelReadsBack(args: seq<string>, model: string)
    ensures ModelOf(WithModel(args, model)) == model
  {
    WhereTheFlagIs(args, model);
  }

  /** A second choice leaves no trace of the first. */
  lemma LastChoiceWins(args: seq<string>, first: string, second: string)
    ensures WithModel(WithModel(args, first), second) == WithModel(args, second)
  {
    KeptHasNoFlag(args);
    var tail := if first == "" then [] else [FLAG, first];
    KeptOfFlagless(Kept(args), tail);
    assert Kept(tail) == [] by {
      if first != "" { assert tail[2..] == []; }
    }
  }

  lemma FlaglessStays(args: seq<string>)
    requires FLAG !in args
    ensures WithModel(args, "") == args
  {
    hide Kept;
    assert args + [] == args;
    KeptOfFlagless(args, []);
    NothingKept([]);
  }

  lemma LastPairStays(front: seq<string>, model: string)
    requires FLAG !in front
    ensures WithModel(front + [FLAG, model], model) == front + if model == "" then [] else [FLAG, model]
  {
    hide Kept;
    KeptOfFlagless(front, [FLAG, model]);
    NothingKept([FLAG, model]);
    assert front + [] == front;
  }

  /** Choosing the model that is already chosen leaves the arguments alone exactly if they have no flag,
      or one flag that comes last but one and has a model. */
  lemma {:induction false} SameChoiceIsIdentity(args: seq<string>)
    ensures WithModel(args, ModelOf(args)) == args <==>
            FlagAt(args) == |args| || (FlagAt(args) == |args| - 2 && args[|args| - 1] != "")
  {
    hide Kept, WithModel, FlagAt;
    var i, m := FlagAt(args), ModelOf(args);
    WhereTheFlagIs(args, m);
    if i == |args| {
      assert args[..i] == args;
      FlaglessStays(args);
    } else if i == |args| - 2 && m != "" {
      assert args == args[..i] + [FLAG, m];
      LastPairStays(args[..i], m);
    }
  }

  lemma NothingKept(pair: seq<string>)
    requires pair == [] || (|pair| == 2 && pair[0] == FLAG)
    ensures Kept(pair) == []
  {
    if pair != [] { assert pair[2..] == []; }
  }

  /** args.indexOf: the scan for the first flag, -1 if there is none. */
  method IndexOfFlag(args: seq<string>) returns (idx: int)
    ensures idx == if FlagAt(args) < |args| then FlagAt(args) else -1
  {
    hide FlagAt;
    for i := 0 to |args|
      invariant FLAG !in args[..i]
    {
      if args[i] == FLAG {
        FlagIsAt(args, i);
        return i;
      }
      assert args[..i + 1] == args[..i] + [args[i]];
    }
    assert args[..|args|] == args;
    FlagIsAt(args, |args|);
    return -1;
  }

  method ModelFromArgs(args: seq<string>) returns (model: string)
    ensures model == ModelOf(args)
  {
    var idx := IndexOfFlag(args);
    model := if idx >= 0 && idx + 1 < |args| then args[idx + 1] else "";
  }

  method ArgsWithModel(args: seq<string>, model: string) returns (next: seq<string>)
    ensures next == WithModel(args, model)
  {
    next := [];
    var i := 0;
    while i < |args|
      invariant 0 <= i <= |args| + 1
      invariant Kept(args) == next + if i < |args| then Kept(args[i..]) else []
    {
      if args[i] == FLAG {
        if i + 2 <= |args| { assert args[i..][2..] == args[i + 2..]; }
        i := i + 2;
        continue;
      }
      assert args[i..][1..] == args[i + 1..];
      next := next + [args[i]];
      i := i + 1;
    }
    if model != "" { next := next + [FLAG, model]; }
  }

  /** The manager's reading: it goes on to a later flag when nothing follows the first, and so agrees
      with the client's, because nothing follows a last argument. */
  method ExtractModelFromArgs(args: seq<string>) returns (model: string)
    ensures model == ModelOf(args)
  {
    for i := 0 to |args|
      invariant forall j :: 0 <= j < i ==> args[j] != FLAG || j + 1 == |args|
      invariant i < |args| ==> FLAG !in args[..i]
    {
      if args[i] == FLAG && i + 1 < |args| {
        FlagIsAt(args, i);
        return args[i + 1];
      }
      assert args[..i + 1] == args[..i] + [args[i]];
    }
    return "";
  }
}
