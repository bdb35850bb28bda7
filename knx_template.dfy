/**
 * cmd/kizcmd/cmd/cmd_knx_template.go: the template generator merges the devices already
 * in the KNX configuration with the devices of the box. Configured devices are kept as
 * they are; each new device gets one binding per distinct supported command and state
 * name, at group address 0. The mapping from box names to configuration names
 * (ConfigNameForKizCommand, ConfigNameForKizState) is a parameter.
 */
module KnxTemplate {
  import opened Wrappers
  import opened Errors
  import opened Domain
  import opened KnxConfig

  /** cmdAlreadyThere and stateAlreadyThere: some binding of `l` has the name `s`. */
  function NameAlreadyThere(l: seq<Binding>, s: string): (b: bool)
    ensures b <==> exists i :: 0 <= i < |l| && l[i].name == s
  {
    if |l| == 0 then false
    else if l[0].name == s then true
    else
      var b := NameAlreadyThere(l[1..], s);
      assert forall i :: 0 < i < |l| ==> l[i] == l[1..][i - 1];
      b
  }

  /** The configuration names of a box device's commands, in definition order ("" for unsupported). */
  function CommandNames(kd: Device, configName: string -> string): seq<string> {
    seq(|kd.definition.commands|, i requires 0 <= i < |kd.definition.commands| =>
      configName(kd.definition.commands[i].commandName))
  }

  /** The configuration names of a box device's states, in definition order ("" for unsupported). */
  function StateNames(kd: Device, configName: string -> string): seq<string> {
    seq(|kd.definition.states|, i requires 0 <= i < |kd.definition.states| =>
      configName(kd.definition.states[i].qualifiedName))
  }

  /**
   * The bindings generated from a list of names: "" is dropped, a name already bound is
   * skipped, every binding is at group address 0.
   */
  function Generated(names: seq<string>): (bs: seq<Binding>)
    ensures forall i :: 0 <= i < |bs| ==> bs[i].name != "" && bs[i].groupAddr == 0
    ensures forall i, j :: 0 <= i < j < |bs| ==> bs[i].name != bs[j].name
    ensures forall n :: NameAlreadyThere(bs, n) <==> n != "" && n in names
  {
    if |names| == 0 then []
    else
      var prev := Generated(names[..|names| - 1]);
      var n := names[|names| - 1];
      assert names == names[..|names| - 1] + [n];
      var bs := if n == "" || NameAlreadyThere(prev, n) then prev else prev + [Binding(n, 0)];
      assert forall m :: NameAlreadyThere(bs, m) <==> NameAlreadyThere(prev, m) || (m == n && n != "") by {
        forall m ensures NameAlreadyThere(bs, m) <==> NameAlreadyThere(prev, m) || (m == n && n != "") {
          if bs != prev {
            assert bs[|prev|].name == n;
            assert forall i :: 0 <= i < |prev| ==> bs[i] == prev[i];
          }
        }
      }
      bs
  }

  /** A new configuration entry for a box device. */
  function NewEntry(kd: Device, commandName: string -> string, stateName: string -> string): MappedDevice {
    MappedDevice(kd.deviceLabel, kd.deviceURL,
      Generated(CommandNames(kd, commandName)), Generated(StateNames(kd, stateName)))
  }

  /** An entry is worth adding when it binds at least one command or state. */
  predicate Worth(e: MappedDevice) {
    |e.commands| > 0 || |e.states| > 0
  }

  /** The configured devices keyed by URL; a later device with the same URL replaces an earlier one. */
  function ConfigMap(cfg: seq<MappedDevice>): (m: map<string, MappedDevice>)
    ensures forall i :: 0 <= i < |cfg| ==> cfg[i].url in m
    ensures forall k :: k in m ==> m[k].url == k && m[k] in cfg
  {
    if |cfg| == 0 then map[]
    else
      var prev := ConfigMap(cfg[..|cfg| - 1]);
      var cd := cfg[|cfg| - 1];
      assert forall i :: 0 <= i < |cfg| - 1 ==> cfg[..|cfg| - 1][i] == cfg[i];
      prev[cd.url := cd]
  }

  /** The last configured device with a URL is the one kept for it. */
  lemma {:induction false} ConfigMapLastWins(cfg: seq<MappedDevice>, i: int)
    requires 0 <= i < |cfg|
    requires forall j :: i < j < |cfg| ==> cfg[j].url != cfg[i].url
    ensures ConfigMap(cfg)[cfg[i].url] == cfg[i]
  {
    if i < |cfg| - 1 {
      var init := cfg[..|cfg| - 1];
      assert init[i] == cfg[i];
      assert forall j :: i < j < |init| ==> init[j] == cfg[j];
      ConfigMapLastWins(init, i);
    }
  }

  /** The index of the first box device with URL `k` whose new entry is worth adding. */
  ghost predicate FirstWorthAt(kiz: seq<Device>, commandName: string -> string, stateName: string -> string, k: string, i: int) {
    0 <= i < |kiz| && kiz[i].deviceURL == k && Worth(NewEntry(kiz[i], commandName, stateName)) &&
    forall j :: 0 <= j < i && kiz[j].deviceURL == k ==> !Worth(NewEntry(kiz[j], commandName, stateName))
  }

  /** The box devices added, in order, to the map `dm`: known URLs are skipped, entries without bindings are dropped. */
  function AddCloud(dm: map<string, MappedDevice>, kiz: seq<Device>, commandName: string -> string, stateName: string -> string)
    : (r: map<string, MappedDevice>)
    ensures forall k :: k in dm ==> k in r && r[k] == dm[k]
    ensures (forall k :: k in dm ==> dm[k].url == k) ==> forall k :: k in r ==> r[k].url == k
  {
    if |kiz| == 0 then dm
    else
      var prev := AddCloud(dm, kiz[..|kiz| - 1], commandName, stateName);
      var kd := kiz[|kiz| - 1];
      if kd.deviceURL in prev then prev
      else
        var e := NewEntry(kd, commandName, stateName);
        if Worth(e) then prev[kd.deviceURL := e] else prev
  }

  /** A URL the box adds is bound to the entry of the first box device with that URL worth adding. */
  lemma {:induction false} AddCloudEntries(dm: map<string, MappedDevice>, kiz: seq<Device>,
                                           commandName: string -> string, stateName: string -> string, k: string)
    requires k in AddCloud(dm, kiz, commandName, stateName) && k !in dm
    ensures exists i :: (FirstWorthAt(kiz, commandName, stateName, k, i) &&
      AddCloud(dm, kiz, commandName, stateName)[k] == NewEntry(kiz[i], commandName, stateName))
  {
    var init := kiz[..|kiz| - 1];
    var prev := AddCloud(dm, init, commandName, stateName);
    var kd := kiz[|kiz| - 1];
    assert forall i :: 0 <= i < |kiz| - 1 ==> init[i] == kiz[i];
    if k in prev {
      AddCloudEntries(dm, init, commandName, stateName, k);
      var i :| FirstWorthAt(init, commandName, stateName, k, i) && prev[k] == NewEntry(init[i], commandName, stateName);
      assert FirstWorthAt(kiz, commandName, stateName, k, i);
    } else {
      assert k == kd.deviceURL;
      forall j | 0 <= j < |kiz| - 1 && kiz[j].deviceURL == k
        ensures !Worth(NewEntry(kiz[j], commandName, stateName))
      {
        if Worth(NewEntry(kiz[j], commandName, stateName)) {
          AddCloudCovers(dm, init, commandName, stateName, j);
        }
      }
      assert FirstWorthAt(kiz, commandName, stateName, k, |kiz| - 1);
    }
  }

  /** Every box device worth adding has its URL in the result. */
  lemma {:induction false} AddCloudCovers(dm: map<string, MappedDevice>, kiz: seq<Device>,
                                          commandName: string -> string, stateName: string -> string, i: int)
    requires 0 <= i < |kiz| && Worth(NewEntry(kiz[i], commandName, stateName))
    ensures kiz[i].deviceURL in AddCloud(dm, kiz, commandName, stateName)
  {
    var init := kiz[..|kiz| - 1];
    if i < |kiz| - 1 {
      assert init[i] == kiz[i];
      AddCloudCovers(dm, init, commandName, stateName, i);
    }
  }

  /** The merged configuration, before it is listed. */
  function Merged(cfg: seq<MappedDevice>, kiz: seq<Device>, commandName: string -> string, stateName: string -> string)
    : map<string, MappedDevice>
  {
    AddCloud(ConfigMap(cfg), kiz, commandName, stateName)
  }

  /** Every merged entry is keyed by its own URL, and every configured URL is kept. */
  lemma MergedKeyedByURL(cfg: seq<MappedDevice>, kiz: seq<Device>, commandName: string -> string, stateName: string -> string)
    ensures var m := Merged(cfg, kiz, commandName, stateName);
      (forall k :: k in m ==> m[k].url == k) &&
      (forall i :: 0 <= i < |cfg| ==> cfg[i].url in m && m[cfg[i].url] in cfg)
  {
  }

  /** A newly added entry binds only supported, distinct names, all at group address 0. */
  lemma NewEntriesWellFormed(cfg: seq<MappedDevice>, kiz: seq<Device>, commandName: string -> string, stateName: string -> string, k: string)
    requires k in Merged(cfg, kiz, commandName, stateName) && k !in ConfigMap(cfg)
    ensures var e := Merged(cfg, kiz, commandName, stateName)[k];
      Worth(e) &&
      (forall i :: 0 <= i < |e.commands| ==> e.commands[i].name != "" && e.commands[i].groupAddr == 0) &&
      (forall i :: 0 <= i < |e.states| ==> e.states[i].name != "" && e.states[i].groupAddr == 0) &&
      (forall i, j :: 0 <= i < j < |e.commands| ==> e.commands[i].name != e.commands[j].name) &&
      (forall i, j :: 0 <= i < j < |e.states| ==> e.states[i].name != e.states[j].name)
  {
    AddCloudEntries(ConfigMap(cfg), kiz, commandName, stateName, k);
    var i :| FirstWorthAt(kiz, commandName, stateName, k, i) &&
      Merged(cfg, kiz, commandName, stateName)[k] == NewEntry(kiz[i], commandName, stateName);
  }

  /** `list` holds each value of `m` once, keyed by its URL. */
  ghost predicate ListsEachOnce(list: seq<MappedDevice>, m: map<string, MappedDevice>) {
    |list| == |m| &&
    (forall i :: 0 <= i < |list| ==> list[i].url in m && m[list[i].url] == list[i]) &&
    (forall i, j :: 0 <= i < j < |list| ==> list[i].url != list[j].url) &&
    (forall k :: k in m ==> exists i :: 0 <= i < |list| && list[i].url == k)
  }

  /** The first configured device without a URL is at index `i`. */
  ghost predicate FirstEmptyURL(cfg: seq<MappedDevice>, i: int) {
    0 <= i < |cfg| && cfg[i].url == "" && forall j :: 0 <= j < i ==> cfg[j].url != ""
  }

  /** The generated bindings of one kind, built by appending as the source does. */
  method Bind(names: seq<string>) returns (bs: seq<Binding>)
    ensures bs == Generated(names)
  {
    bs := [];
    var n := 0;
    while n < |names|
      invariant 0 <= n <= |names|
      invariant bs == Generated(names[..n])
    {
      assert names[..n + 1][..n] == names[..n];
      var name := names[n];
      if name != "" && !NameAlreadyThere(bs, name) {
        bs := bs + [Binding(name, 0)];
      }
      n := n + 1;
    }
    assert names[..n] == names;
  }

  /**
   * The Run body of the template command. `cfg` and `kiz` are what config.Devices and
   * GetDevices returned; an error, and a configured device without URL, end the command.
   */
  method Merge(cfg: Result<seq<MappedDevice>, Error>, kiz: Result<seq<Device>, Error>,
               commandName: string -> string, stateName: string -> string)
    returns (r: Result<seq<MappedDevice>, Error>)
    ensures cfg.Failure? ==> r == Failure(cfg.error)
    ensures cfg.Success? ==> forall i :: FirstEmptyURL(cfg.value, i) ==> r == Failure(EmptyConfigURL(cfg.value[i].deviceLabel))
    ensures cfg.Success? && (forall i :: 0 <= i < |cfg.value| ==> cfg.value[i].url != "") && kiz.Failure? ==>
      r == Failure(kiz.error)
    ensures r.Success? <==> cfg.Success? && kiz.Success? && forall i :: 0 <= i < |cfg.value| ==> cfg.value[i].url != ""
    ensures r.Success? ==> ListsEachOnce(r.value, Merged(cfg.value, kiz.value, commandName, stateName))
  {
    if cfg.Failure? {
      return Failure(cfg.error);
    }
    var keyed := KeyByURL(cfg.value);
    if keyed.Failure? {
      return Failure(keyed.error);
    }
    if kiz.Failure? {
      return Failure(kiz.error);
    }
    var dm := AddDevices(keyed.value, kiz.value, commandName, stateName);
    MergedKeyedByURL(cfg.value, kiz.value, commandName, stateName);
    var devList := ListValues(dm);
    r := Success(devList);
  }

  /** The configured devices keyed by URL; a device without URL ends the command. */
  method KeyByURL(cfgDevices: seq<MappedDevice>) returns (r: Result<map<string, MappedDevice>, Error>)
    ensures forall i :: FirstEmptyURL(cfgDevices, i) ==> r == Failure(EmptyConfigURL(cfgDevices[i].deviceLabel))
    ensures r.Success? <==> forall i :: 0 <= i < |cfgDevices| ==> cfgDevices[i].url != ""
    ensures r.Success? ==> r.value == ConfigMap(cfgDevices)
  {
    var dm: map<string, MappedDevice> := map[];
    var n := 0;
    while n < |cfgDevices|
      invariant 0 <= n <= |cfgDevices|
      invariant URLsBefore(cfgDevices, n)
      invariant dm == ConfigMap(cfgDevices[..n])
    {
      var cd := cfgDevices[n];
      if cd.url == "" {
        OnlyFirstEmpty(cfgDevices, n);
        return Failure(EmptyConfigURL(cd.deviceLabel));
      }
      KeyOneMore(cfgDevices, n);
      dm := dm[cd.url := cd];
      n := n + 1;
    }
    assert cfgDevices[..n] == cfgDevices;
    r := Success(dm);
  }

  /** The first `n` configured devices all have a URL. */
  predicate URLsBefore(cfg: seq<MappedDevice>, n: int)
    requires 0 <= n <= |cfg|
  {
    forall j :: 0 <= j < n ==> cfg[j].url != ""
  }

  /** A device without URL after devices that all have one is the first such device. */
  lemma OnlyFirstEmpty(cfg: seq<MappedDevice>, n: int)
    requires 0 <= n < |cfg| && cfg[n].url == ""
    requires URLsBefore(cfg, n)
    ensures forall i :: FirstEmptyURL(cfg, i) <==> i == n
    ensures !(forall i :: 0 <= i < |cfg| ==> cfg[i].url != "")
  {
  }

  /** Keying one more configured device, which has a URL. */
  lemma KeyOneMore(cfg: seq<MappedDevice>, n: int)
    requires 0 <= n < |cfg| && cfg[n].url != ""
    requires URLsBefore(cfg, n)
    ensures URLsBefore(cfg, n + 1)
    ensures ConfigMap(cfg[..n + 1]) == ConfigMap(cfg[..n])[cfg[n].url := cfg[n]]
  {
    assert cfg[..n + 1][..n] == cfg[..n];
  }

  /** The loop over the box devices. */
  method AddDevices(dm0: map<string, MappedDevice>, kizDevices: seq<Device>,
                    commandName: string -> string, stateName: string -> string)
    returns (dm: map<string, MappedDevice>)
    ensures dm == AddCloud(dm0, kizDevices, commandName, stateName)
  {
    dm := dm0;
    var m := 0;
    while m < |kizDevices|
      invariant 0 <= m <= |kizDevices|
      invariant dm == AddCloud(dm0, kizDevices[..m], commandName, stateName)
    {
      assert kizDevices[..m + 1][..m] == kizDevices[..m];
      var kd := kizDevices[m];
      var url := kd.deviceURL;
      if url !in dm {
        var commands := Bind(CommandNames(kd, commandName));
        var states := Bind(StateNames(kd, stateName));
        var d := MappedDevice(kd.deviceLabel, url, commands, states);
        if |d.commands| > 0 || |d.states| > 0 {
          dm := dm[url := d];
        }
      }
      m := m + 1;
    }
    assert kizDevices[..m] == kizDevices;
  }

  /** The values of a map keyed by URL, as a list in no particular order. */
  method ListValues(dm: map<string, MappedDevice>) returns (list: seq<MappedDevice>)
    requires forall k :: k in dm ==> dm[k].url == k
    ensures ListsEachOnce(list, dm)
  {
    list := [];
    var rest := dm.Keys;
    while rest != {}
      invariant ListedExcept(list, dm, rest)
      decreases |rest|
    {
      var k :| k in rest;
      ListOneMore(list, dm, rest, k);
      list := list + [dm[k]];
      rest := rest - {k};
    }
  }

  /** `list` holds each value of `m` whose key is not in `rest`, once. */
  ghost predicate ListedExcept(list: seq<MappedDevice>, dm: map<string, MappedDevice>, rest: set<string>) {
    rest <= dm.Keys &&
    |list| + |rest| == |dm| &&
    (forall i :: 0 <= i < |list| ==> list[i].url in dm && dm[list[i].url] == list[i] && list[i].url !in rest) &&
    (forall i, j :: 0 <= i < j < |list| ==> list[i].url != list[j].url) &&
    (forall k :: k in dm && k !in rest ==> exists i :: 0 <= i < |list| && list[i].url == k)
  }

  /** Listing the value of one more key. */
  lemma ListOneMore(list: seq<MappedDevice>, dm: map<string, MappedDevice>, rest: set<string>, k: string)
    requires forall k :: k in dm ==> dm[k].url == k
    requires ListedExcept(list, dm, rest) && k in rest
    ensures ListedExcept(list + [dm[k]], dm, rest - {k})
  {
    var list' := list + [dm[k]];
    forall k' | k' in dm && k' !in rest - {k}
      ensures exists i :: 0 <= i < |list'| && list'[i].url == k'
    {
      if k' == k {
        assert list'[|list|].url == k;
      } else {
        var i :| 0 <= i < |list| && list[i].url == k';
        assert list'[i].url == k';
      }
    }
  }
}
