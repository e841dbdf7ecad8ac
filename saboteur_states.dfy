/** The lifecycle state words of `Opal::Saboteur` (include/saboteur/Saboteur.hpp)
    and the observer callbacks that `setStateTo` dispatches on them. */
module SaboteurStates {
  import opened Results

  /** `Opal::State` is a `uint64_t`. */
  type State = bv64

  const CLEAR: State        := 0x0000
  const CREATED: State      := 0x0801
  const WAITING: State      := 0x0803
  const STARTED: State      := 0x0805
  const TERMINATED: State   := 0x0809
  const TERMINATE: State    := 0x0811
  const SUSPENDED: State    := 0x0821
  const RESUMING: State     := 0x0841
  const SWAPPING: State     := 0x0881
  const SELF_SWAP: State    := 0x0901
  const SELF_SUSPEND: State := 0x0a01
  const SUICIDE: State      := 0x0c09
  const ATTACHED: State     := 0x0801

  /** Every state word the header names, CLEAR excluded. */
  const NAMED: seq<State> :=
    [CREATED, WAITING, STARTED, TERMINATED, TERMINATE, SUSPENDED, RESUMING,
     SWAPPING, SELF_SWAP, SELF_SUSPEND, SUICIDE, ATTACHED]

  /** The bits every named state word carries. */
  const COMMON_BITS: State := 0x0801

  /** The seven callbacks of `Opal::SaboteurObserver`. */
  datatype Event =
    | OnCreated
    | OnWaiting
    | OnStarted
    | OnSuspended
    | OnResume
    | OnSuicide
    | OnTerminated

  /** The callback the `switch` in `setStateTo` makes for a newly stored
      state word, if any. RESUMING never reaches the switch. */
  function Callback(s: State): (e: Option<Event>)
    ensures e.Some? <==> s in {CREATED, WAITING, STARTED, SUSPENDED, SUICIDE, TERMINATED}
    ensures e == Some(OnCreated) <==> s == CREATED
    ensures e == Some(OnWaiting) <==> s == WAITING
    ensures e == Some(OnStarted) <==> s == STARTED
    ensures e == Some(OnSuspended) <==> s == SUSPENDED
    ensures e == Some(OnSuicide) <==> s == SUICIDE
    ensures e == Some(OnTerminated) <==> s == TERMINATED
    ensures e != Some(OnResume)
  {
    match s
    case 0x0801 => Some(OnCreated)
    case 0x0803 => Some(OnWaiting)
    case 0x0805 => Some(OnStarted)
    case 0x0821 => Some(OnSuspended)
    case 0x0c09 => Some(OnSuicide)
    case 0x0809 => Some(OnTerminated)
    case _ => None
  }

  /** The named states are pairwise distinct, except that ATTACHED is the
      same word as CREATED; CLEAR is zero and differs from all of them. */
  lemma StatesDistinct()
    ensures ATTACHED == CREATED && CLEAR == 0
    ensures forall i, j :: 0 <= i < j < |NAMED| && NAMED[i] == NAMED[j] ==> NAMED[i] == CREATED && j == |NAMED| - 1
    ensures forall i :: 0 <= i < |NAMED| ==> NAMED[i] != CLEAR
  {
  }

  /** Every named state word contains the bits 0x801, so no two of them
      have a zero bitwise AND: the words are not independent flags. */
  lemma StatesShareBits()
    ensures forall i :: 0 <= i < |NAMED| ==> NAMED[i] & COMMON_BITS == COMMON_BITS
    ensures forall i, j :: 0 <= i < |NAMED| && 0 <= j < |NAMED| ==> NAMED[i] & NAMED[j] != 0
  {
    forall i, j | 0 <= i < |NAMED| && 0 <= j < |NAMED|
      ensures NAMED[i] & NAMED[j] != 0
    {
      assert NAMED[i] & COMMON_BITS == COMMON_BITS;
      assert NAMED[j] & COMMON_BITS == COMMON_BITS;
      SharedBitsSurviveAnd(NAMED[i], NAMED[j]);
    }
  }

  lemma SharedBitsSurviveAnd(a: State, b: State)
    requires a & COMMON_BITS == COMMON_BITS && b & COMMON_BITS == COMMON_BITS
    ensures a & b != 0
  {
    assert (a & b) & COMMON_BITS == COMMON_BITS;
  }
}
