/**
 * The stop logic of the CU-UP side of an F1-U bearer: stopping always stops
 * the DL notification timer, and disconnects the bearer's UL tunnel from
 * the gateway only the first time.
 */
module F1uCuUpBearer {

  /** The UL tunnel the bearer was set up with: transport address and GTP-U tunnel endpoint id. */
  datatype UpTransportLayerInfo = UpTransportLayerInfo(transportLayerAddress: string, gtpTeid: nat)

  /**
   * An F1-U bearer. `disconnectCalls` records the tunnels passed to the
   * disconnector and `dlNotifTimerStops` counts stops of the DL notification
   * timer; both stand for effects on collaborators.
   */
  class F1uBearer {
    const ulTnlInfo: UpTransportLayerInfo
    var stopped: bool
    var disconnectCalls: seq<UpTransportLayerInfo>
    var dlNotifTimerStops: nat

    /** The bearer is disconnected once, with its own tunnel, exactly when it is stopped. */
    ghost predicate Valid()
      reads this
    {
      disconnectCalls == if stopped then [ulTnlInfo] else []
    }

    constructor (ulTnlInfo: UpTransportLayerInfo)
      ensures Valid()
      ensures this.ulTnlInfo == ulTnlInfo
      ensures !stopped && disconnectCalls == [] && dlNotifTimerStops == 0
    {
      this.ulTnlInfo := ulTnlInfo;
      stopped := false;
      disconnectCalls := [];
      dlNotifTimerStops := 0;
    }

    /** Stops the timer on every call; disconnects only when not yet stopped. */
    method Stop()
      requires Valid()
      modifies this
      ensures Valid()
      ensures stopped
      ensures dlNotifTimerStops == old(dlNotifTimerStops) + 1
      ensures disconnectCalls == old(disconnectCalls) + (if old(stopped) then [] else [ulTnlInfo])
      ensures |disconnectCalls| <= 1
    {
      dlNotifTimerStops := dlNotifTimerStops + 1;
      if !stopped {
        disconnectCalls := disconnectCalls + [ulTnlInfo];
      }
      stopped := true;
    }

    /** The destructor, which stops the bearer. */
    method Destroy()
      requires Valid()
      modifies this
      ensures Valid() && stopped && |disconnectCalls| == 1
      ensures disconnectCalls == old(disconnectCalls) + (if old(stopped) then [] else [ulTnlInfo])
    {
      Stop();
    }

    /** The UL tunnel info assigned at construction. */
    function GetUlTnlInfo(): (info: UpTransportLayerInfo)
      ensures info == ulTnlInfo
    {
      ulTnlInfo
    }

    /** The UL TEID assigned at construction. */
    function GetUlTeid(): (teid: nat)
      ensures teid == ulTnlInfo.gtpTeid
    {
      ulTnlInfo.gtpTeid
    }
  }
}
