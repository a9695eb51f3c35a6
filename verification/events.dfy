/** The values the detector emits: lid transitions and classified net-change
    events. The firmware renders them as text tags for the BLE characteristics;
    here they stay structured. */
module Events {
  import opened Clock

  datatype Option<+T> = None | Some(value: T)

  /** The message written to the lid characteristic. */
  datatype LidEvent = LidClosed | LidOpen

  /** The three categories of the four-way classification table. */
  datatype NetKind = Drinking | Adding | Throwing

  /** One flushed net change: its category, its whole-gram magnitude (1 g is
      taken as 1 ml) and the loop time of the flush. */
  datatype NetEvent = NetEvent(kind: NetKind, magnitude: nat, at: Time)

  function Abs(x: real): real
  {
    if x < 0.0 then -x else x
  }

  /** The lid message for a reading: `LID_CLOSED` for a closed lid, otherwise `LID_OPEN`. */
  function LidMessage(closed: bool): (m: LidEvent)
    ensures m.LidClosed? <==> closed
  {
    if closed then LidClosed else LidOpen
  }

  /** The physical reading of the table, stated independently of the
      firmware's if-chain: a mass gain is always adding; a mass loss is
      drinking with the lid open and throwing away with the lid closed. */
  function Kind(ml: real, lidClosed: bool): NetKind
  {
    if ml > 0.0 then Adding else if lidClosed then Throwing else Drinking
  }

  /** The four guarded branches of the flush, in the firmware's order. The
      result is `None` when no branch matches, which leaves the tag empty. */
  function Classify(ml: real, lidClosed: bool): (k: Option<NetKind>)
    ensures k.Some? <==> ml != 0.0
    ensures k.Some? ==> k.value == Kind(ml, lidClosed)
  {
    if ml < 0.0 && !lidClosed then Some(Drinking)
    else if ml > 0.0 && !lidClosed then Some(Adding)
    else if ml < 0.0 && lidClosed then Some(Throwing)
    else if ml > 0.0 && lidClosed then Some(Adding)
    else None
  }

  /** The `(int)` cast of a non-negative float: truncation toward zero. */
  function Truncate(x: real): (n: nat)
    requires x >= 0.0
    ensures n as real <= x < n as real + 1.0
  {
    x.Floor
  }

  /** The magnitude printed in a tag: the branch for a loss casts `-ml`, the
      branch for a gain casts `ml`, so the result is the truncated absolute
      value, and exactly the absolute value for a whole number of grams. */
  function Magnitude(ml: real): (m: nat)
    ensures m as real <= Abs(ml) < m as real + 1.0
    ensures ml.Floor as real == ml ==> m as real == Abs(ml)
  {
    if ml < 0.0 then
      assert ml.Floor as real == ml ==> (-ml).Floor == -ml.Floor;
      Truncate(-ml)
    else
      Truncate(ml)
  }

  /** The four literal cases of the classification table. */
  lemma ClassificationTable()
    ensures Classify(-50.0, false) == Some(Drinking) && Magnitude(-50.0) == 50
    ensures Classify(30.0, false) == Some(Adding) && Magnitude(30.0) == 30
    ensures Classify(-20.0, true) == Some(Throwing) && Magnitude(-20.0) == 20
    ensures Classify(15.0, true) == Some(Adding) && Magnitude(15.0) == 15
  {
  }

  /** A gain is reported as adding whatever the lid reading, so the lid only
      matters for losses. */
  lemma GainIgnoresLid(ml: real)
    requires ml > 0.0
    ensures Classify(ml, true) == Classify(ml, false) == Some(Adding)
  {
  }
}
