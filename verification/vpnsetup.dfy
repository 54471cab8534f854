/** internal/vpnsetup/vpnsetup.go: the VPN configuration of the current connection. */
module VpnSetup {
  import opened Wrappers
  import opened Prefixes
  import opened WatchList
  import Split = SplitRouting

  /** A VPN config as reported by vpncscript. valid is the result of its own
      check; other stands for what is only passed on (gateway, DNS, PID, ...). */
  datatype VpnConfig = VpnConfig(device: string, ip: string, disableAlwaysOn: bool, valid: bool,
                                 split: Split.Config, excludeDns: seq<Name>, other: nat)

  class VPNSetup {
    const watches: Watches
    var config: Option<VpnConfig>
    var splitrt: Split.SplitRouting?
    var ensuring: bool

    ghost predicate Valid()
      reads this
    {
      config.Some? == (splitrt != null) == ensuring
    }

    constructor ()
      ensures Valid() && config == None && fresh(watches)
    {
      watches := new Watches();
      config, splitrt, ensuring := None, null, false;
    }

    method Setup(conf: VpnConfig)
      requires Valid()
      modifies this, watches
      ensures Valid() && config == Some(conf)
      ensures watches.View() == List(set n | n in conf.excludeDns, map[], map[])
      ensures splitrt != null && fresh(splitrt) && splitrt.config == conf.split
      ensures splitrt.Valid() && splitrt.View() == Split.Init(conf.split)
    {
      config := Some(conf);
      watches.SetWatches(conf.excludeDns);
      var s := new Split.SplitRouting(conf.split);
      s.Start();
      splitrt := s;
      ensuring := true;
    }

    /** Stops the ensure loop and split routing: without an earlier setup the
        program would close a nil channel here, so it must be active. */
    method Teardown()
      requires Valid() && config.Some?
      modifies this, watches
      ensures Valid() && config == None && watches.View() == EMPTY
    {
      ensuring := false;
      splitrt := null;
      watches.SetWatches([]);
      config := None;
    }
  }
}
