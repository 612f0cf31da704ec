/** The table of Riven stack names (engines/mohawk/riven_stack.cpp, namespace RivenStacks) and
    the two lookups between stack ids and names. */
module RivenStacks {
  import opened Streams
  import opened RivenNameLists

  /** `kStackUnknown`: the id `getId` gives a name that is in no entry of the table. */
  const StackUnknown: nat := 0

  /** The stack names, indexed by stack id. */
  const Names: seq<string> :=
    ["<unknown>", "ospit", "pspit", "rspit", "tspit", "bspit", "gspit", "jspit", "aspit"]

  /** `getName`: the name of a stack id (asserted to be in range). */
  function GetName(stackId: nat): (r: string)
    requires stackId < |Names|
    ensures NUL !in r && r != []
  {
    Names[stackId]
  }

  /** The first table entry that equals `name` ignoring case, or `StackUnknown`. */
  function FirstMatch(name: string, from: nat): (r: nat)
    requires from <= |Names|
    ensures r < |Names|
    ensures (exists i :: from <= i < |Names| && StriCmp(name, Names[i]) == 0) ==>
              from <= r && StriCmp(name, Names[r]) == 0
              && forall j :: from <= j < r ==> StriCmp(name, Names[j]) != 0
    ensures (forall i :: from <= i < |Names| ==> StriCmp(name, Names[i]) != 0) ==> r == StackUnknown
    decreases |Names| - from
  {
    if from == |Names| then StackUnknown
    else if StriCmp(name, Names[from]) == 0 then from
    else FirstMatch(name, from + 1)
  }

  /** `getId`: scan the table in order and return the first entry equal to `stackName`
      ignoring case; `kStackUnknown` when none is. */
  method GetId(stackName: string) returns (r: nat)
    ensures r == FirstMatch(stackName, 0)
  {
    var i := 0;
    while i < |Names|
      invariant 0 <= i <= |Names|
      invariant FirstMatch(stackName, i) == FirstMatch(stackName, 0)
    {
      if StriCmp(stackName, Names[i]) == 0 {
        return i;
      }
      i := i + 1;
    }
    return StackUnknown;
  }

  /** The names are pairwise distinct ignoring case: already their first characters differ. */
  lemma NamesDistinctIgnoringCase(i: nat, j: nat)
    requires i < j < |Names|
    ensures StriCmp(Names[i], Names[j]) != 0
  {
    var initials := "<oprtbgja";
    assert forall k :: 0 <= k < |Names| ==> CharAt(Names[k], 0) == initials[k];
    assert ToLower(initials[i]) != ToLower(initials[j]);
  }

  /** Looking up the name of a stack id gives the id back. */
  lemma GetIdOfName(stackId: nat)
    requires stackId < |Names|
    ensures FirstMatch(GetName(stackId), 0) == stackId
  {
    StriCmpZeroIff(Names[stackId], Names[stackId]);
    forall j | 0 <= j < stackId
      ensures StriCmp(Names[stackId], Names[j]) != 0
    {
      NamesDistinctIgnoringCase(j, stackId);
      StriCmpAntisymmetric(Names[j], Names[stackId]);
    }
  }
}
