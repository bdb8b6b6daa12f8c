/** The risk settings (`settings`) and their partial update (`update_risk`):
    each query argument that is supplied overwrites its setting, the others
    stay. The values are stored, never enforced. */
module Risk {

  datatype Option<T> = None | Some(value: T)

  datatype Settings = Settings(positionSize: real, maxDailyLoss: real, stopLossPct: real)

  /** The settings at startup. */
  const Defaults: Settings := Settings(1000.0, 1000.0, 0.05)

  /** The optional arguments of one `update_risk` call. */
  datatype RiskUpdate = RiskUpdate(positionSize: Option<real>, maxDailyLoss: Option<real>, stopLossPct: Option<real>)

  /** An update that supplies nothing. */
  const NoChange: RiskUpdate := RiskUpdate(None, None, None)

  /** The value a setting takes: the supplied one, else the current one. */
  function Override(current: real, given: Option<real>): real {
    if given.Some? then given.value else current
  }

  /** The settings after one `update_risk` call. */
  function Updated(s: Settings, u: RiskUpdate): (r: Settings)
    ensures u.positionSize.Some? ==> r.positionSize == u.positionSize.value
    ensures u.positionSize.None? ==> r.positionSize == s.positionSize
    ensures u.maxDailyLoss.Some? ==> r.maxDailyLoss == u.maxDailyLoss.value
    ensures u.maxDailyLoss.None? ==> r.maxDailyLoss == s.maxDailyLoss
    ensures u.stopLossPct.Some? ==> r.stopLossPct == u.stopLossPct.value
    ensures u.stopLossPct.None? ==> r.stopLossPct == s.stopLossPct
  {
    Settings(Override(s.positionSize, u.positionSize),
             Override(s.maxDailyLoss, u.maxDailyLoss),
             Override(s.stopLossPct, u.stopLossPct))
  }

  /** One update with the arguments of `first`, overridden by those of `second`. */
  function Then(first: RiskUpdate, second: RiskUpdate): RiskUpdate {
    RiskUpdate(
      if second.positionSize.Some? then second.positionSize else first.positionSize,
      if second.maxDailyLoss.Some? then second.maxDailyLoss else first.maxDailyLoss,
      if second.stopLossPct.Some? then second.stopLossPct else first.stopLossPct)
  }

  /** An update that supplies nothing changes nothing. */
  lemma NoChangeIsIdentity(s: Settings)
    ensures Updated(s, NoChange) == s
  {
  }

  /** Repeating an update changes nothing more. */
  lemma UpdateIdempotent(s: Settings, u: RiskUpdate)
    ensures Updated(Updated(s, u), u) == Updated(s, u)
  {
  }

  /** Two updates in a row are one update where the later arguments win. */
  lemma UpdatesCompose(s: Settings, first: RiskUpdate, second: RiskUpdate)
    ensures Updated(Updated(s, first), second) == Updated(s, Then(first, second))
  {
  }

  class RiskSettings {
    var positionSize: real
    var maxDailyLoss: real
    var stopLossPct: real

    function Current(): Settings
      reads this
    {
      Settings(positionSize, maxDailyLoss, stopLossPct)
    }

    constructor ()
      ensures Current() == Defaults
    {
      positionSize, maxDailyLoss, stopLossPct := 1000.0, 1000.0, 0.05;
    }

    /** `update_risk`: overwrites each supplied setting, field by field, and
        returns all settings. */
    method UpdateRisk(newPositionSize: Option<real>, newMaxDailyLoss: Option<real>, newStopLossPct: Option<real>)
      returns (r: Settings)
      modifies this
      ensures Current() == Updated(old(Current()), RiskUpdate(newPositionSize, newMaxDailyLoss, newStopLossPct))
      ensures r == Current()
    {
      if newPositionSize.Some? {
        positionSize := newPositionSize.value;
      }
      if newMaxDailyLoss.Some? {
        maxDailyLoss := newMaxDailyLoss.value;
      }
      if newStopLossPct.Some? {
        stopLossPct := newStopLossPct.value;
      }
      r := Current();
    }
  }
}
