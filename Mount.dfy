/**
 * The mount screen: a mounted/unmounted flag per partition, toggled by the
 * user, and the list of changes against the state the screen opened with.
 */
module Mount {
  import opened Types
  import opened Lists

  const MountPartitions: seq<string> := ["System", "Data", "Cache", "Vendor", "MicroSD Card"]

  /** System, Vendor and the SD card start mounted; Data and Cache do not. */
  const InitialMountState: map<string, bool> :=
    map["System" := true, "Data" := false, "Cache" := false, "Vendor" := true, "MicroSD Card" := true]

  /** A state has a flag for every partition the screen lists. */
  predicate Complete(state: map<string, bool>)
  {
    forall p :: p in MountPartitions ==> p in state
  }

  /** `handleToggle`: flips the flag of `partition`; a partition without a
      flag reads as unmounted, so it becomes mounted. */
  function Toggle(state: map<string, bool>, partition: string): (r: map<string, bool>)
    ensures partition in r && r[partition] == !(partition in state && state[partition])
    ensures forall p :: p != partition ==> (p in r <==> p in state)
    ensures forall p :: p in state && p != partition ==> r[p] == state[p]
  {
    state[partition := !(partition in state && state[partition])]
  }

  /** The partitions of `ps` whose flag differs from the initial one, in
      the order of `ps`. */
  function ChangedAmong(ps: seq<string>, state: map<string, bool>): (r: seq<string>)
    requires forall p :: p in ps ==> p in state && p in InitialMountState
    ensures forall p :: p in r <==> p in ps && state[p] != InitialMountState[p]
    ensures SubsequenceOf(r, ps)
  {
    if ps == [] then []
    else
      var init := ps[..|ps| - 1];
      var last := ps[|ps| - 1];
      var rest := ChangedAmong(init, state);
      assert ps == init + [last];
      if state[last] != InitialMountState[last] then
        SubsequenceSnoc(rest, init, last);
        rest + [last]
      else
        SubsequenceExtend(rest, init, last);
        rest
  }

  /** A state that agrees with the initial one on `ps` has nothing toggled
      among them. */
  lemma {:induction false} NothingChanged(ps: seq<string>, state: map<string, bool>)
    requires forall p :: p in ps ==> p in state && p in InitialMountState && state[p] == InitialMountState[p]
    ensures ChangedAmong(ps, state) == []
  {
    if ps != [] {
      NothingChanged(ps[..|ps| - 1], state);
    }
  }

  /** `getToggledPartitions`: the listed partitions whose flag differs from
      the initial state, in list order. */
  function ToggledPartitions(state: map<string, bool>): (r: seq<string>)
    requires Complete(state)
    ensures forall p :: p in r <==> p in MountPartitions && state[p] != InitialMountState[p]
    ensures SubsequenceOf(r, MountPartitions)
  {
    ChangedAmong(MountPartitions, state)
  }

  /** `handleConfirm`'s payload: one operation per toggled partition, asking
      for its current flag. */
  function Changes(state: map<string, bool>): (ops: seq<MountOp>)
    requires Complete(state)
    ensures |ops| == |ToggledPartitions(state)|
    ensures forall i :: 0 <= i < |ops| ==>
      ops[i].partition == ToggledPartitions(state)[i] && ops[i].mount == state[ops[i].partition]
  {
    var toggled := ToggledPartitions(state);
    seq(|toggled|, i requires 0 <= i < |toggled| => MountOp(toggled[i], state[toggled[i]]))
  }

  /** Every operation sent really changes its partition: it asks for the
      opposite of the initial flag. */
  lemma ChangesFlipInitial(state: map<string, bool>)
    requires Complete(state)
    ensures forall op :: op in Changes(state) ==>
      op.partition in MountPartitions && op.mount == !InitialMountState[op.partition]
  {
    var ops := Changes(state);
    forall op | op in ops
      ensures op.partition in MountPartitions && op.mount == !InitialMountState[op.partition]
    {
      var i :| 0 <= i < |ops| && ops[i] == op;
      assert ToggledPartitions(state)[i] in ToggledPartitions(state);
    }
  }

  /** Nothing is toggled when the screen opens, so confirm starts disabled. */
  lemma InitiallyNothingToggled()
    ensures Complete(InitialMountState)
    ensures ToggledPartitions(InitialMountState) == []
    ensures Changes(InitialMountState) == []
  {
    NothingChanged(MountPartitions, InitialMountState);
  }

  /** Toggling a partition twice gives back the state before, so it also
      drops out of the toggled list again. */
  lemma ToggleTwice(state: map<string, bool>, partition: string)
    requires partition in state
    ensures Toggle(Toggle(state, partition), partition) == state
  {
  }

  /** Toggling a listed partition adds it to the toggled list when it was
      not there and removes it when it was; the rest of the list keeps its
      members. */
  lemma ToggleFlipsMembership(state: map<string, bool>, partition: string)
    requires Complete(state)
    requires partition in MountPartitions
    ensures Complete(Toggle(state, partition))
    ensures partition in ToggledPartitions(Toggle(state, partition)) <==> partition !in ToggledPartitions(state)
    ensures forall p :: p != partition ==>
      (p in ToggledPartitions(Toggle(state, partition)) <==> p in ToggledPartitions(state))
  {
  }

  /** The mount screen's state. */
  class MountScreen {
    var mountState: map<string, bool>

    predicate Valid()
      reads this
    {
      Complete(mountState)
    }

    constructor()
      ensures Valid() && mountState == InitialMountState
    {
      mountState := InitialMountState;
    }

    /** `handleToggle`. */
    method HandleToggle(partition: string)
      requires Valid()
      modifies this
      ensures Valid()
      ensures mountState == Toggle(old(mountState), partition)
    {
      mountState := mountState[partition := !(partition in mountState && mountState[partition])];
    }

    /** Confirm is enabled exactly when some partition is toggled. */
    function ConfirmEnabled(): (b: bool)
      requires Valid()
      reads this
      ensures b <==> exists p :: p in MountPartitions && mountState[p] != InitialMountState[p]
    {
      var toggled := ToggledPartitions(mountState);
      if toggled != [] then assert toggled[0] in toggled; true else false
    }
  }
}
