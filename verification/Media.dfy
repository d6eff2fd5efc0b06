/** Source cards: which are offered, which are mounted, and which have been ejected. */
module Media {
  import opened Wrappers

  datatype BlockDevice = BlockDevice(name: string, path: Option<string>, uuid: Option<string>)

  /** Present and not empty. */
  predicate Given(o: Option<string>) {
    o.Some? && o.value != ""
  }

  /** The slot a card sits in. */
  function DeviceKey(d: BlockDevice): string {
    if Given(d.path) then d.path.value else d.name
  }

  /** The card itself, by its filesystem where it has an identifier. */
  function IdentityKey(d: BlockDevice): string {
    if Given(d.uuid) then d.uuid.value else DeviceKey(d)
  }

  /**
   A card with an identifier is known by it, in whatever slot: two with different ones differ, and
   one is the same in any slot. A card without one is known by its slot, and a slot by its path or,
   for want of one, by its name.
   */
  lemma CardsAreToldApart(d: BlockDevice, e: BlockDevice)
    ensures Given(d.uuid) && Given(e.uuid) ==> (IdentityKey(d) == IdentityKey(e) <==> d.uuid == e.uuid)
    ensures !Given(d.uuid) && !Given(e.uuid) ==> (IdentityKey(d) == IdentityKey(e) <==> DeviceKey(d) == DeviceKey(e))
    ensures Given(d.path) && Given(e.path) ==> (DeviceKey(d) == DeviceKey(e) <==> d.path == e.path)
    ensures !Given(d.path) && !Given(e.path) ==> (DeviceKey(d) == DeviceKey(e) <==> d.name == e.name)
    ensures Given(d.uuid) ==> IdentityKey(d) == d.uuid.value && PointOf("/media", d) == "/media/" + d.uuid.value
    ensures d.path == Some("/dev/sda1") ==> DeviceKey(d) == "/dev/sda1"
    ensures d.path == None || d.path == Some("") ==> DeviceKey(d) == d.name
    ensures d.uuid == None || d.uuid == Some("") ==> IdentityKey(d) == DeviceKey(d) && PointOf("/media", d) == "/media/" + d.name
  {
    assert "/media" + "/" == "/media/";
    assert forall s: string :: "/media" + "/" + s == "/media/" + s;
  }

  function PointOf(root: string, d: BlockDevice): string {
    root + "/" + if Given(d.uuid) then d.uuid.value else d.name
  }

  function Keys(devices: seq<BlockDevice>): set<string> {
    set d | d in devices :: IdentityKey(d)
  }

  function Slots(devices: seq<BlockDevice>): set<string> {
    set d | d in devices :: DeviceKey(d)
  }

  /** The devices whose identity is not in `hidden`, in order. */
  function Offered(devices: seq<BlockDevice>, hidden: set<string>): (r: seq<BlockDevice>)
    ensures forall d :: d in r <==> d in devices && IdentityKey(d) !in hidden
  {
    if devices == [] then []
    else
      var rest := Offered(devices[1..], hidden);
      if IdentityKey(devices[0]) in hidden then rest else [devices[0]] + rest
  }

  /** What is offered of a list is what is offered of its parts, in their order; one device is offered unless it is hidden. */
  lemma {:induction false} OfferedJoins(devices: seq<BlockDevice>, more: seq<BlockDevice>, hidden: set<string>)
    ensures Offered(devices + more, hidden) == Offered(devices, hidden) + Offered(more, hidden)
    decreases |devices|
  {
    if devices == [] {
      assert devices + more == more;
    } else {
      var rest := devices[1..];
      OfferedJoins(rest, more, hidden);
      assert (devices + more)[0] == devices[0] && (devices + more)[1..] == rest + more;
      var a, b := Offered(rest, hidden), Offered(more, hidden);
      assert [devices[0]] + (a + b) == ([devices[0]] + a) + b;
    }
  }

  lemma OneIsOffered(d: BlockDevice, hidden: set<string>)
    ensures Offered([d], hidden) == if IdentityKey(d) in hidden then [] else [d]
  {
    assert [d][1..] == [];
  }

  /** What the manager has seen and done: ejections of the cards present, and polls of the cards present. */
  datatype Observation = Ejected(keys: set<string>) | Polled(keys: set<string>)

  /** The card was ejected, and no poll since has found it gone. An ejection is not a poll. */
  ghost predicate Suppressed(log: seq<Observation>, key: string) {
    exists i :: (0 <= i < |log| && log[i].Ejected? && key in log[i].keys
                 && forall j | i < j < |log| && log[j].Polled? :: key in log[j].keys)
  }

  lemma SuppressedNext(log: seq<Observation>, o: Observation, key: string)
    ensures Suppressed(log + [o], key) <==>
              if o.Ejected? then Suppressed(log, key) || key in o.keys
              else Suppressed(log, key) && key in o.keys
  {
    var longer := log + [o];
    if Suppressed(log, key) && (o.Ejected? || key in o.keys) {
      var i :| 0 <= i < |log| && log[i].Ejected? && key in log[i].keys
               && forall j | i < j < |log| && log[j].Polled? :: key in log[j].keys;
      assert longer[i] == log[i];
    }
    if o.Ejected? && key in o.keys {
      assert longer[|log|] == o;
    }
    if Suppressed(longer, key) {
      var i :| 0 <= i < |longer| && longer[i].Ejected? && key in longer[i].keys
               && forall j | i < j < |longer| && longer[j].Polled? :: key in longer[j].keys;
      if i < |log| {
        assert forall j | i < j < |log| && log[j].Polled? :: longer[j] == log[j];
        assert o.Polled? ==> key in longer[|log|].keys;
      }
    }
  }

  /** `card` is a history variable: the identity of the card that was mounted. */
  datatype SourceMount = SourceMount(point: string, card: string)

  datatype SourceRef = SourceRef(root: string, device: BlockDevice)

  datatype MediaState = NO_SOURCE | SINGLE_SOURCE | MULTIPLE_SOURCES

  datatype MountError = MountFailed

  /** Adds the keys of the devices to a set, counting those that are new to it. */
  method Mark(before: set<string>, raw: seq<BlockDevice>) returns (marked: set<string>, newly: nat)
    ensures marked == before + Keys(raw) && newly == |Keys(raw) - before|
  {
    marked, newly := before, 0;
    for k := 0 to |raw|
      invariant marked == before + Keys(raw[..k]) && newly == |Keys(raw[..k]) - before|
    {
      var key := IdentityKey(raw[k]);
      KeysNext(raw, k);
      MarkedNext(before, Keys(raw[..k]), key);
      if key !in marked {
        newly := newly + 1;
      }
      marked := marked + {key};
    }
    assert raw[..|raw|] == raw;
  }

  lemma NothingLeftOver(a: set<string>, b: set<string>)
    requires a - b == {}
    ensures forall x :: x in a ==> x in b
  {
    forall x | x in a
      ensures x in b
    {
      assert x in b || x in a - b;
    }
  }

  lemma MarkedNext(before: set<string>, keys: set<string>, key: string)
    ensures |(keys + {key}) - before| == |keys - before| + if key in before + keys then 0 else 1
    ensures before + (keys + {key}) == (before + keys) + {key}
  {
    if key in before + keys {
      assert (keys + {key}) - before == keys - before;
    } else {
      assert (keys + {key}) - before == (keys - before) + {key};
    }
  }

  lemma KeysNext(raw: seq<BlockDevice>, k: nat)
    requires k < |raw|
    ensures Keys(raw[..k + 1]) == Keys(raw[..k]) + {IdentityKey(raw[k])}
  {
    assert raw[..k + 1] == raw[..k] + [raw[k]];
  }

  class MediaManager {
    const mountRoot: string
    var ejected: set<string>
    var mounted: map<string, SourceMount>
    var selected: Option<string>
    ghost var log: seq<Observation>
    /** Mount points that the system holds, and those whose unmounting failed. */
    ghost var attached: set<string>
    ghost var stuck: set<string>

    /** No mount is forgotten. */
    ghost predicate Tracked()
      reads this`mounted, this`attached, this`stuck
    {
      forall point <- attached :: point in stuck || exists slot <- mounted :: mounted[slot].point == point
    }

    /** The ejected cards are the suppressed ones, none of which is mounted. */
    ghost predicate Valid()
      reads this
    {
      && (forall key :: key in ejected <==> Suppressed(log, key))
      && (forall slot <- mounted :: mounted[slot].card !in ejected)
      && Tracked()
    }

    constructor (mountRoot: string)
      ensures Valid() && this.mountRoot == mountRoot && mounted == map[] && ejected == {} && attached == {} && stuck == {}
    {
      this.mountRoot := mountRoot;
      ejected, mounted, selected, log, attached, stuck := {}, map[], None, [], {}, {};
    }

    /** A poll: forgets the ejected cards that have gone, and offers the present ones that are not ejected. */
    method SourceCandidates(raw: seq<BlockDevice>) returns (candidates: seq<BlockDevice>)
      requires Valid()
      modifies this`ejected, this`log
      ensures Valid() && log == old(log) + [Polled(Keys(raw))] && ejected == old(ejected) * Keys(raw)
      ensures forall d :: d in candidates <==> d in raw && !Suppressed(log, IdentityKey(d))
      ensures candidates == Offered(raw, ejected)
    {
      Poll(raw);
      candidates := Offered(raw, ejected);
    }

    method Poll(raw: seq<BlockDevice>)
      requires Valid()
      modifies this`ejected, this`log
      ensures Valid() && log == old(log) + [Polled(Keys(raw))] && ejected == old(ejected) * Keys(raw)
    {
      ejected := ejected * Keys(raw);
      log := log + [Polled(Keys(raw))];
      forall key
        ensures key in ejected <==> Suppressed(log, key)
      {
        SuppressedNext(old(log), Polled(Keys(raw)), key);
      }
    }

    /** True when an ejected card is still there. */
    method AwaitingRemoval(raw: seq<BlockDevice>) returns (waiting: bool)
      requires Valid()
      modifies this`ejected, this`log
      ensures Valid() && log == old(log) + [Polled(Keys(raw))] && ejected == old(ejected) * Keys(raw)
      ensures waiting <==> exists d :: d in raw && Suppressed(log, IdentityKey(d))
    {
      Poll(raw);
      waiting := ejected != {};
      if waiting {
        var key :| key in ejected;
        var d :| d in raw && IdentityKey(d) == key;
      }
    }

    method State(raw: seq<BlockDevice>) returns (s: MediaState)
      requires Valid()
      modifies this`ejected, this`log
      ensures Valid()
      ensures s.NO_SOURCE? <==> forall d :: d in raw ==> Suppressed(log, IdentityKey(d))
      ensures s.SINGLE_SOURCE? <==> |Offered(raw, ejected)| == 1
    {
      var candidates := SourceCandidates(raw);
      s := if |candidates| == 0 then NO_SOURCE else if |candidates| == 1 then SINGLE_SOURCE else MULTIPLE_SOURCES;
      if |candidates| > 0 {
        assert candidates[0] in candidates;
      }
    }

    method Select(uuid: string)
      requires Valid()
      modifies this`selected
      ensures Valid() && selected == Some(uuid)
    {
      selected := Some(uuid);
    }

    /** Ejects every card present, and lets go of every mount; counts the newly ejected. */
    method Eject(raw: seq<BlockDevice>) returns (newly: nat)
      requires Valid()
      modifies this`ejected, this`log, this`mounted, this`attached, this`stuck
      ensures Valid() && log == old(log) + [Ejected(Keys(raw))] && ejected == old(ejected) + Keys(raw)
      ensures newly == |Keys(raw) - old(ejected)|
      ensures mounted == map[] && attached <= stuck
      ensures forall d <- raw :: Suppressed(log, IdentityKey(d))
    {
      var marked;
      marked, newly := Mark(ejected, raw);
      ejected := marked;
      log := log + [Ejected(Keys(raw))];
      EjectAll();
      forall key
        ensures key in ejected <==> Suppressed(log, key)
      {
        SuppressedNext(old(log), Ejected(Keys(raw)), key);
      }
    }

    /** Unmounts every tracked source. */
    method EjectAll()
      requires Tracked()
      modifies this`mounted, this`attached, this`stuck
      ensures Tracked() && mounted == map[] && attached <= stuck && old(stuck) <= stuck
    {
      while mounted != map[]
        invariant Tracked() && old(stuck) <= stuck
        decreases |mounted|
      {
        var slot :| slot in mounted;
        UnmountKey(slot);
      }
    }

    /** Forgets a mount, whether or not the system lets go of it. */
    method UnmountKey(slot: string)
      requires Tracked() && slot in mounted
      modifies this`mounted, this`attached, this`stuck
      ensures Tracked() && mounted == old(mounted) - {slot} && old(stuck) <= stuck
    {
      var mount := mounted[slot];
      mounted := mounted - {slot};
      var failed: bool := *;
      if failed {
        stuck := stuck + {mount.point};
      } else {
        attached := attached - {mount.point};
      }
      forall point <- attached
        ensures point in stuck || exists other <- mounted :: mounted[other].point == point
      {
        if point !in old(stuck) {
          var other :| other in old(mounted) && old(mounted)[other].point == point;
          assert other != slot ==> other in mounted && mounted[other] == old(mounted)[other];
        }
      }
    }

    /** Unmounts the sources whose slot is not among those present. */
    method ReleaseAbsent(present: seq<BlockDevice>)
      requires Valid()
      modifies this`mounted, this`attached, this`stuck
      ensures Valid() && old(stuck) <= stuck
      ensures mounted == map slot | slot in old(mounted) && slot in Slots(present) :: old(mounted)[slot]
    {
      while mounted.Keys - Slots(present) != {}
        invariant Valid() && old(stuck) <= stuck
        invariant forall slot :: slot in mounted ==> slot in old(mounted) && mounted[slot] == old(mounted)[slot]
        invariant forall slot :: slot in old(mounted) && slot in Slots(present) ==> slot in mounted
        decreases |mounted|
      {
        var slot :| slot in mounted.Keys - Slots(present);
        UnmountKey(slot);
      }
      NothingLeftOver(mounted.Keys, Slots(present));
    }

    /** The only candidate, or else the selected one. */
    function SelectDevice(candidates: seq<BlockDevice>): (r: Option<BlockDevice>)
      reads this`selected
      ensures r.Some? ==> r.value in candidates
      ensures r.Some? ==> |candidates| == 1 || (selected.Some? && r.value.uuid == selected)
      ensures r.None? ==> |candidates| != 1 && forall d <- candidates :: selected.None? || d.uuid != selected
    {
      if candidates == [] then None
      else if |candidates| == 1 then Some(candidates[0])
      else if selected.None? then None
      else FirstWithUuid(candidates, selected)
    }

    /** The mount that a slot has, or that a card in it gets. */
    function MountFor(d: BlockDevice, mounts: map<string, SourceMount>): SourceMount {
      if DeviceKey(d) in mounts then mounts[DeviceKey(d)] else SourceMount(PointOf(mountRoot, d), IdentityKey(d))
    }

    /** Mounts a device, unless something is mounted for its slot already. */
    method EnsureMounted(d: BlockDevice, mountFails: bool) returns (r: Result<SourceMount, MountError>)
      requires Valid() && IdentityKey(d) !in ejected
      modifies this`mounted, this`attached
      ensures Valid()
      ensures r.Failure? <==> DeviceKey(d) !in old(mounted) && mountFails
      ensures r.Failure? ==> mounted == old(mounted)
      ensures r.Success? ==> r.value == MountFor(d, old(mounted))
      ensures r.Success? ==> mounted == old(mounted)[DeviceKey(d) := r.value]
    {
      var slot := DeviceKey(d);
      if slot in mounted {
        return Success(mounted[slot]);
      }
      if mountFails {
        return Failure(MountFailed);
      }
      var mount := SourceMount(PointOf(mountRoot, d), IdentityKey(d));
      mounted := mounted[slot := mount];
      attached := attached + {mount.point};
      forall point <- attached
        ensures point in stuck || exists other <- mounted :: mounted[other].point == point
      {
        if point == mount.point {
          assert mounted[slot].point == point;
        } else if point !in stuck {
          var other :| other in old(mounted) && old(mounted)[other].point == point;
          assert mounted[other] == old(mounted)[other];
        }
      }
      return Success(mount);
    }

    /**
     The active source, mounted on demand. Afterwards every mount is in the slot of a card that is
     present and not ejected; and the source, if any, is such a card.
     */
    method CurrentSource(raw: seq<BlockDevice>, mountFails: bool) returns (r: Result<Option<SourceRef>, MountError>)
      requires Valid()
      modifies this`ejected, this`log, this`mounted, this`attached, this`stuck
      ensures Valid() && log == old(log) + [Polled(Keys(raw))] && ejected == old(ejected) * Keys(raw)
      ensures forall slot <- mounted :: exists d :: d in raw && DeviceKey(d) == slot && !Suppressed(log, IdentityKey(d))
      ensures var device := SelectDevice(Offered(raw, ejected));
              && (r.Failure? <==> device.Some? && DeviceKey(device.value) !in old(mounted) && mountFails)
              && (r.Success? ==> if device.None? then r.value.None? else r.value.Some? && r.value.value.device == device.value)
      ensures var kept := map slot | slot in old(mounted) && slot in Slots(Offered(raw, ejected)) :: old(mounted)[slot];
              mounted == if r.Success? && r.value.Some?
                         then kept[DeviceKey(r.value.value.device) := MountFor(r.value.value.device, old(mounted))]
                         else kept
      ensures r.Success? && r.value.Some? ==>
                var source := r.value.value;
                && source.device in raw && !Suppressed(log, IdentityKey(source.device))
                && DeviceKey(source.device) in mounted && source.root == mounted[DeviceKey(source.device)].point
      ensures r.Success? && r.value.Some? ==>
                var source := r.value.value;
                var slot := DeviceKey(source.device);
                (source.root == PointOf(mountRoot, source.device)
                 <==> slot !in old(mounted) || old(mounted)[slot].point == PointOf(mountRoot, source.device))
    {
      var candidates := SourceCandidates(raw);
      ReleaseAbsent(candidates);
      assert forall slot <- mounted :: slot in Slots(candidates);
      var device := SelectDevice(candidates);
      if device.None? {
        return Success(None);
      }
      var mount := EnsureMounted(device.value, mountFails);
      assert DeviceKey(device.value) in Slots(candidates);
      assert forall slot <- mounted :: slot in Slots(candidates);
      if mount.Failure? {
        return Failure(mount.error);
      }
      return Success(Some(SourceRef(mount.value.point, device.value)));
    }
  }

  function FirstWithUuid(devices: seq<BlockDevice>, uuid: Option<string>): (r: Option<BlockDevice>)
    ensures r.Some? ==> r.value in devices && r.value.uuid == uuid
    ensures r.None? ==> forall d <- devices :: d.uuid != uuid
    ensures r.Some? ==> exists k :: 0 <= k < |devices| && devices[k] == r.value && forall j | 0 <= j < k :: devices[j].uuid != uuid
  {
    if devices == [] then None
    else if devices[0].uuid == uuid then Some(devices[0])
    else FirstWithUuid(devices[1..], uuid)
  }

  /** A card that is reformatted in its slot has a new identifier, and is offered although the old one was ejected. */
  method ReformattedCardIsOffered(m: MediaManager, ejectedCard: BlockDevice,
                                  newCard: BlockDevice) returns (candidates: seq<BlockDevice>)
    requires m.Valid() && m.ejected == {} && DeviceKey(ejectedCard) == DeviceKey(newCard)
    requires Given(ejectedCard.uuid) && Given(newCard.uuid) && ejectedCard.uuid != newCard.uuid
    modifies m
    ensures candidates == [newCard]
  {
    var n := m.Eject([ejectedCard]);
    candidates := m.SourceCandidates([newCard]);
    OneIsOffered(newCard, m.ejected);
  }

  /**
   A card swapped for another in the same slot between two polls is not noticed: the second is
   offered under the mount point of the first.
   */
  method SwappedCardKeepsTheOldMount(m: MediaManager, first: BlockDevice, second: BlockDevice) returns (source: SourceRef)
    requires m.Valid() && m.ejected == {} && m.mounted == map[]
    requires DeviceKey(first) == DeviceKey(second) && PointOf(m.mountRoot, first) != PointOf(m.mountRoot, second)
    modifies m
    ensures source.device == second && source.root != PointOf(m.mountRoot, second)
  {
    var a := m.CurrentSource([first], false);
    assert Offered([first], m.ejected) == [first];
    var b := m.CurrentSource([second], false);
    assert Offered([second], m.ejected) == [second];
    source := b.value.value;
  }
}
