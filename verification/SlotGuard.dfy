/** The per-account concurrency guard of open-sse/services/oauthAntiBan.js.

    Entries are shared objects: a release closure keeps hold of its entry even after the table has
    dropped it. The invariant therefore speaks of every entry ever created. */
module SlotGuard {
  import opened Basics
  import opened Eviction

  // ---------------------------------------------------------------- shared objects

  class Entry {
    var count: int
    var waiters: seq<int>

    constructor ()
      ensures count == 0 && waiters == []
    {
      count, waiters := 0, [];
    }
  }

  /** A release closure: the entry it captured, if any, and its `released` flag. */
  class Ticket {
    const entry: Entry?
    ghost const account: string
    var released: bool

    constructor (entry: Entry?, ghost account: string)
      ensures this.entry == entry && this.account == account && !released
    {
      this.entry := entry;
      this.account := account;
      released := false;
    }
  }

  /** The unreleased tickets of one entry. */
  ghost function OpenIn(tickets: set<Ticket>, e: Entry): set<Ticket>
    reads tickets
  {
    set t | t in tickets && t.entry == e && !t.released
  }

  /** Every count is the number of unreleased tickets, and never above the limit; no one waits. */
  ghost predicate IsCounted(entries: set<Entry>, tickets: set<Ticket>, limit: int)
    reads entries, tickets
  {
    && (forall t :: t in tickets && t.entry != null ==> t.entry in entries)
    && (forall e :: e in entries ==> e.count == |OpenIn(tickets, e)| && (e.count == 0 || e.count <= limit))
    && (forall e :: e in entries ==> e.waiters == [])
  }

  lemma NewEntryCounted(entries: set<Entry>, tickets: set<Ticket>, limit: int, e: Entry)
    requires IsCounted(entries, tickets, limit) && e !in entries && e.count == 0 && e.waiters == []
    ensures IsCounted(entries + {e}, tickets, limit)
  {
    assert OpenIn(tickets, e) == {};
  }

  /** A no-op ticket, captured while the guard was off, counts nowhere. */
  lemma NoopCounted(entries: set<Entry>, tickets: set<Ticket>, limit: int, t: Ticket)
    requires IsCounted(entries, tickets, limit) && t.entry == null
    ensures IsCounted(entries, tickets + {t}, limit)
  {
    forall e: Entry ensures OpenIn(tickets + {t}, e) == OpenIn(tickets, e) {}
  }

  lemma TicketCounted(entries: set<Entry>, tickets: set<Ticket>, limit: int, entry: Entry, t: Ticket)
    requires entry in entries && t !in tickets && t.entry == entry && !t.released
    requires forall t :: t in tickets && t.entry != null ==> t.entry in entries
    requires forall e :: e in entries && e != entry ==>
      e.count == |OpenIn(tickets, e)| && (e.count == 0 || e.count <= limit)
    requires entry.count == |OpenIn(tickets, entry)| + 1 <= limit
    requires forall e :: e in entries ==> e.waiters == []
    ensures IsCounted(entries, tickets + {t}, limit)
  {
    forall e | e in entries ensures e.count == |OpenIn(tickets + {t}, e)| {
      if e == entry {
        assert OpenIn(tickets + {t}, e) == OpenIn(tickets, e) + {t};
      } else {
        assert OpenIn(tickets + {t}, e) == OpenIn(tickets, e);
      }
    }
  }

  /** `order` lists the keys of `table`, and no entry serves two accounts. */
  ghost predicate IsTable(order: seq<string>, table: map<string, Entry>, entries: set<Entry>) {
    && Distinct(order)
    && (forall k :: k in order <==> k in table)
    && (forall k :: k in table ==> table[k] in entries)
    && (forall a, b :: a in table && b in table && table[a] == table[b] ==> a == b)
  }

  lemma AddKeepsTable(order: seq<string>, table: map<string, Entry>, entries: set<Entry>, key: string, e: Entry)
    requires IsTable(order, table, entries) && key !in table && e !in entries
    ensures IsTable(order + [key], table[key := e], entries + {e})
  {
    var o := order + [key];
    assert forall k :: k in o <==> k in order || k == key;
  }

  class Guard {
    const enabled: bool
    const perAccountMax: int
    const trackerMax: int
    var order: seq<string>             // the keys of inFlight, oldest first
    var inFlight: map<string, Entry>
    ghost var entries: set<Entry>      // every entry ever created
    ghost var tickets: set<Ticket>     // every closure ever handed out

    /** The unreleased tickets of one account. */
    ghost function Held(account: string): set<Ticket>
      reads this, tickets
    {
      set t | t in tickets && t.entry != null && t.account == account && !t.released
    }

    ghost function IdleKeys(): set<string>
      reads this, entries
    {
      set k | k in inFlight && inFlight[k] in entries && inFlight[k].count == 0
    }

    ghost predicate Valid()
      reads this, entries, tickets
    {
      && IsTable(order, inFlight, entries)
      && IsCounted(entries, tickets, perAccountMax)
      && (trackerMax > 0 ==> |order| <= trackerMax)
    }

    /** Every unreleased ticket belongs to the entry the table holds for its account. */
    ghost predicate Tracked()
      reads this, tickets
    {
      forall t :: t in tickets && t.entry != null && !t.released ==>
        t.account in inFlight && inFlight[t.account] == t.entry
    }

    /** Whether an account can be served by an entry of the table: it has one, or a new one would
        not be evicted at once. */
    ghost predicate Room(account: string)
      reads this, entries
    {
      account in inFlight || trackerMax <= 0 || |order| < trackerMax || exists k :: k in order && k in IdleKeys()
    }

    constructor (enabled: bool, perAccountMax: int, trackerMax: int)
      ensures Valid() && Tracked() && inFlight == map[] && order == [] && tickets == {} && entries == {}
      ensures this.enabled == enabled && this.perAccountMax == perAccountMax && this.trackerMax == trackerMax
    {
      this.enabled, this.perAccountMax, this.trackerMax := enabled, perAccountMax, trackerMax;
      order, inFlight, entries, tickets := [], map[], {}, {};
    }

    /** Conservation: as long as every ticket is tracked, an account's count is the number of slots
        it holds, which is never above the limit; an account without an entry holds none. */
    lemma Conservation(account: string)
      requires Valid() && Tracked()
      ensures account in inFlight ==> inFlight[account].count == |Held(account)|
      ensures account !in inFlight ==> Held(account) == {}
      ensures |Held(account)| == 0 || |Held(account)| <= perAccountMax
    {
      if account in inFlight {
        assert Held(account) == OpenIn(tickets, inFlight[account]);
      }
    }

    /** While fewer accounts than the tracker's limit hold slots, there is room for any account. */
    lemma FewHoldersLeaveRoom(account: string, holders: set<string>)
      requires Valid() && Tracked()
      requires forall k :: Held(k) != {} ==> k in holders
      requires trackerMax > 0 ==> |holders| < trackerMax
      ensures Room(account)
    {
      if trackerMax > 0 && |order| >= trackerMax {
        if forall k :: k in order ==> k in holders {
          SubsetSize(order, holders);
        } else {
          var k :| k in order && k !in holders;
          Conservation(k);
          assert k in IdleKeys();
        }
      }
    }

    lemma HoldersNotIdle()
      requires Valid() && Tracked()
      ensures forall t :: t in tickets && t.entry != null && !t.released ==>
        t.account in inFlight && t.account !in IdleKeys()
    {
      forall t | t in tickets && t.entry != null && !t.released ensures t.account !in IdleKeys() {
        assert t in OpenIn(tickets, t.entry);
      }
    }

    /** Drops the oldest idle entry once the table is over its limit. */
    method MaybeEvictIdle()
      requires IsTable(order, inFlight, entries) && IsCounted(entries, tickets, perAccountMax)
      modifies this`order, this`inFlight
      ensures IsTable(order, inFlight, entries) && IsCounted(entries, tickets, perAccountMax)
      ensures order == Evicted(old(order), old(IdleKeys()), trackerMax)
      ensures forall k :: k in inFlight ==> k in old(inFlight) && inFlight[k] == old(inFlight)[k]
    {
      if trackerMax <= 0 || |order| <= trackerMax { return; }
      for i := 0 to |order|
        invariant FirstIdle(order, IdleKeys(), i) == FirstIdle(order, IdleKeys(), 0)
      {
        var key := order[i];
        if inFlight[key].count == 0 && inFlight[key].waiters == [] {
          WithoutDistinct(order, i);
          inFlight := inFlight - {key};
          order := order[..i] + order[i + 1..];
          return;
        }
      }
    }

    method AddEntry(accountKey: string) returns (entry: Entry)
      requires IsTable(order, inFlight, entries) && IsCounted(entries, tickets, perAccountMax)
      requires accountKey !in inFlight
      modifies this`order, this`inFlight, this`entries
      ensures IsTable(order, inFlight, entries) && IsCounted(entries, tickets, perAccountMax)
      ensures fresh(entry) && entry.count == 0 && entries == old(entries) + {entry}
      ensures order == old(order) + [accountKey] && inFlight == old(inFlight)[accountKey := entry]
      ensures IdleKeys() == old(IdleKeys()) + {accountKey}
    {
      hide IsTable, IsCounted;
      entry := new Entry();
      NewEntryCounted(entries, tickets, perAccountMax, entry);
      AddKeepsTable(order, inFlight, entries, accountKey, entry);
      inFlight := inFlight[accountKey := entry];
      order := order + [accountKey];
      entries := entries + {entry};
    }

    /** The entry of an account, a new one if need be. The new entry itself is what the eviction
        takes exactly when there is no room. */
    method EnsureEntry(accountKey: string) returns (entry: Entry)
      requires Valid()
      modifies this`order, this`inFlight, this`entries
      ensures Valid() && entries == old(entries) + {entry}
      ensures if accountKey in old(inFlight)
              then entry == old(inFlight)[accountKey] && inFlight == old(inFlight) && order == old(order)
              else fresh(entry) && entry.count == 0
      ensures accountKey in inFlight <==> old(Room(accountKey))
      ensures !old(Room(accountKey)) ==> inFlight == old(inFlight) && order == old(order)
      ensures accountKey !in old(inFlight) ==>
                order == Evicted(old(order) + [accountKey], old(IdleKeys()) + {accountKey}, trackerMax)
      ensures accountKey in inFlight ==> inFlight[accountKey] == entry
      ensures forall k :: k in inFlight && k != accountKey ==> k in old(inFlight) && inFlight[k] == old(inFlight)[k]
      ensures forall k :: k in old(inFlight) && k !in old(IdleKeys()) ==> k in inFlight
      ensures old(Tracked()) ==> Tracked()
    {
      if accountKey in inFlight {
        entry := inFlight[accountKey];
        return;
      }
      hide IsTable, IsCounted;
      if Tracked() { HoldersNotIdle(); }
      entry := NewEntry(accountKey);
    }

    /** The branch of EnsureEntry that adds an entry. */
    method NewEntry(accountKey: string) returns (entry: Entry)
      requires Valid() && accountKey !in inFlight
      modifies this`order, this`inFlight, this`entries
      ensures Valid() && fresh(entry) && entry.count == 0 && entries == old(entries) + {entry}
      ensures accountKey in inFlight <==> old(Room(accountKey))
      ensures !old(Room(accountKey)) ==> inFlight == old(inFlight) && order == old(order)
      ensures order == Evicted(old(order) + [accountKey], old(IdleKeys()) + {accountKey}, trackerMax)
      ensures accountKey in inFlight ==> inFlight[accountKey] == entry
      ensures forall k :: k in inFlight && k != accountKey ==> k in old(inFlight) && inFlight[k] == old(inFlight)[k]
      ensures forall k :: k in old(inFlight) && k !in old(IdleKeys()) ==> k in inFlight
    {
      hide IsCounted, Evicted, FirstIdle;
      AddThenEvict(order, IdleKeys(), trackerMax, accountKey);
      entry := AddEntry(accountKey);
      MaybeEvictIdle();
    }

    /** The slots in use of the account's entry. */
    ghost function InUse(account: string): int
      reads this, entries
    {
      if account in inFlight && inFlight[account] in entries then inFlight[account].count else 0
    }

    /** One slot, or null: a no-op release while the guard is off, null for an empty key, and
        otherwise a slot exactly when the account's entry is below the limit. Entries in use stay,
        no other entry's count changes, and the slot is tracked exactly when there was room. Without
        room the table stays as it was, and the slot belongs to a new entry nobody else can find. */
    method AcquireAccountSlot(accountKey: string) returns (release: Ticket?)
      requires Valid()
      modifies this, entries
      ensures Valid() && old(entries) <= entries && fresh(entries - old(entries))
      ensures tickets == if release == null then old(tickets) else old(tickets) + {release}
      ensures release != null ==> fresh(release) && !release.released && release.account == accountKey
      ensures !enabled ==> release != null && release.entry == null
      ensures enabled && accountKey == "" ==> release == null
      ensures !enabled || accountKey == "" ==> inFlight == old(inFlight) && order == old(order)
      ensures enabled && accountKey != "" ==>
                && (release != null <==> old(InUse(accountKey)) < perAccountMax)
                && (accountKey in inFlight <==> old(Room(accountKey)))
                && (release != null ==> release.entry != null)
      ensures release != null && release.entry != null ==>
                && release.entry in entries && release.entry.count == old(InUse(accountKey)) + 1
                && (if old(Room(accountKey)) then inFlight[accountKey] == release.entry else fresh(release.entry))
      ensures forall e :: e in old(entries) && (release == null || e != release.entry) ==> e.count == old(e.count)
      ensures !old(Room(accountKey)) ==> inFlight == old(inFlight) && order == old(order)
      ensures enabled && accountKey != "" && accountKey !in old(inFlight) ==>
                order == Evicted(old(order) + [accountKey], old(IdleKeys()) + {accountKey}, trackerMax)
      ensures forall k :: k in old(inFlight) && k !in old(IdleKeys()) ==>
        k in inFlight && inFlight[k] == old(inFlight)[k]
      ensures old(Tracked()) && (old(Room(accountKey)) || release == null || !enabled) ==> Tracked()
      ensures enabled && accountKey != "" && !old(Room(accountKey)) && release != null ==> !Tracked()
    {
      if !enabled {
        release := new Ticket(null, accountKey);
        NoopCounted(entries, tickets, perAccountMax, release);
        tickets := tickets + {release};
        return;
      }
      if accountKey == "" { return null; }
      var entry := EnsureEntry(accountKey);
      if entry.count < perAccountMax {
        release := Take(entry, accountKey);
        return;
      }
      return null;
    }

    method Take(entry: Entry, ghost account: string) returns (release: Ticket)
      requires Valid() && entry in entries && entry.count < perAccountMax
      modifies this`tickets, entry
      ensures Valid() && fresh(release) && !release.released && release.entry == entry && release.account == account
      ensures tickets == old(tickets) + {release}
      ensures entry.count == old(entry.count) + 1
      ensures account in inFlight && inFlight[account] == entry ==> (old(Tracked()) ==> Tracked())
      ensures !(account in inFlight && inFlight[account] == entry) ==> !Tracked()
    {
      hide IsTable;
      entry.count := entry.count + 1;
      release := new Ticket(entry, account);
      TicketCounted(entries, tickets, perAccountMax, entry, release);
      tickets := tickets + {release};
    }

    /** Calling a release closure: the first call gives the slot back, later calls do nothing. The
        hand-over to a waiter is never reached. */
    method Release(t: Ticket)
      requires Valid() && t in tickets
      modifies t, entries
      ensures Valid() && t.released
      ensures forall e :: e in entries ==> e.count == old(e.count) - if e == t.entry && !old(t.released) then 1 else 0
      ensures forall e :: e in entries ==> e.waiters == old(e.waiters)
      ensures old(Tracked()) ==> Tracked()
    {
      hide IsTable;
      if t.entry == null {
        t.released := true;
        assert forall e :: e in entries ==> OpenIn(tickets, e) == old(OpenIn(tickets, e));
        return;
      }
      if t.released { return; }
      var entry: Entry := t.entry;
      assert t in OpenIn(tickets, entry);
      t.released := true;
      entry.count := Max(0, entry.count - 1);
      if |entry.waiters| > 0 {
        assert false;
      }
      forall e | e in entries ensures e.count == |OpenIn(tickets, e)| {
        assert OpenIn(tickets, e) == if e == entry then old(OpenIn(tickets, e)) - {t} else old(OpenIn(tickets, e));
      }
    }

    /** The half of resetAllAntiBanState that concerns the guard: the table is cleared, whatever is held. Slots
        that are held then are tracked no more. */
    method ResetAll()
      requires Valid()
      modifies this`order, this`inFlight
      ensures Valid() && order == [] && inFlight == map[]
      ensures Tracked() <==> forall t :: t in tickets && t.entry != null ==> t.released
      ensures forall key :: Room(key) && InUse(key) == 0
    {
      order, inFlight := [], map[];
    }

    method HasAvailableSlot(accountKey: string) returns (free: bool)
      requires Valid()
      ensures free <==> accountKey == "" || accountKey !in inFlight || inFlight[accountKey].count < perAccountMax
      ensures Tracked() && accountKey != "" && perAccountMax > 0 ==> (free <==> |Held(accountKey)| < perAccountMax)
    {
      if Tracked() { Conservation(accountKey); }
      if accountKey == "" || accountKey !in inFlight { return true; }
      return inFlight[accountKey].count < perAccountMax;
    }
  }

  lemma {:induction false} SubsetSize(order: seq<string>, s: set<string>)
    requires Distinct(order) && forall k :: k in order ==> k in s
    ensures |order| <= |s|
  {
    if order != [] {
      var last := order[|order| - 1];
      var init := order[..|order| - 1];
      forall k | k in init ensures k in s - {last} {
        var j :| 0 <= j < |init| && init[j] == k;
        assert order[j] != last;
      }
      SubsetSize(init, s - {last});
    }
  }

  /** One call more: with room it is the limit that decides, without room nothing does. */
  method AcquireNext(g: Guard, key: string) returns (release: Ticket?)
    requires g.Valid() && g.enabled && key != "" && g.perAccountMax > 0 && (g.Room(key) ==> g.Tracked())
    modifies g, g.entries
    ensures g.Valid() && fresh(g.entries - old(g.entries))
    ensures g.Room(key) == old(g.Room(key)) && (g.Room(key) ==> g.Tracked())
    ensures release != null <==> !old(g.Room(key)) || |old(g.Held(key))| < g.perAccountMax
    ensures g.Held(key) == old(g.Held(key)) + (if release == null then {} else {release})
    ensures release != null ==> release !in old(g.Held(key))
  {
    hide IsCounted, Guard.Tracked;
    if g.Room(key) { g.Conservation(key); }
    release := g.AcquireAccountSlot(key);
    assert !old(g.Room(key)) ==> g.IdleKeys() == old(g.IdleKeys());
  }

  /** n calls for one account, none released in between: how many slots they give. With room they give
      slots up to the limit; without room every one of them does, whatever the limit. So the limit is
      exceeded if and only if there is no room and there are more calls than the limit allows. */
  method AcquireMany(g: Guard, key: string, n: nat) returns (got: nat)
    requires g.Valid() && g.Tracked() && g.enabled && key != "" && g.perAccountMax > 0
    modifies g, g.entries
    ensures g.Valid() && fresh(g.entries - old(g.entries))
    ensures old(g.Held(key)) <= g.Held(key) && |g.Held(key)| == |old(g.Held(key))| + got
    ensures got == if old(g.Room(key)) then Min(n, g.perAccountMax - |old(g.Held(key))|) else n
    ensures |g.Held(key)| > g.perAccountMax <==> !old(g.Room(key)) && n > g.perAccountMax
  {
    hide IsTable, IsCounted, Guard.Valid, Guard.Room, Guard.Held, Guard.Tracked, Guard.IdleKeys;
    g.Conservation(key);
    NoRoomNoSlots(g, key);
    got := 0;
    for i := 0 to n
      invariant g.Valid() && fresh(g.entries - old(g.entries))
      invariant old(g.Held(key)) <= g.Held(key) && |g.Held(key)| == |old(g.Held(key))| + got
      invariant g.Room(key) == old(g.Room(key)) && (g.Room(key) ==> g.Tracked())
      invariant got == if g.Room(key) then Min(i, g.perAccountMax - |old(g.Held(key))|) else i
    {
      ghost var held := g.Held(key);
      var release := AcquireNext(g, key);
      if release != null {
        got := got + 1;
        assert |held + {release}| == |held| + 1;
      }
    }
  }

  lemma NoRoomNoSlots(g: Guard, key: string)
    requires g.Valid() && g.Tracked()
    ensures !g.Room(key) ==> g.Held(key) == {}
  {
    g.Conservation(key);
  }

  /** After a reset an account gets a slot, however many it holds. */
  method ResetForgets(g: Guard, key: string)
    requires g.Valid() && g.enabled && key != "" && g.perAccountMax > 0
    modifies g, g.entries
    ensures g.Valid() && |g.Held(key)| == |old(g.Held(key))| + 1
  {
    ghost var held := g.Held(key);
    g.ResetAll();
    var release := g.AcquireAccountSlot(key);
    assert g.Held(key) == held + {release};
  }

  /** The first slot of an account, while the tracker has a free place and nobody is idle. */
  method FillNext(g: Guard, key: string)
    requires g.Valid() && g.Tracked() && g.enabled && g.perAccountMax > 0 && key != "" && key !in g.inFlight
    requires |g.order| < g.trackerMax && g.IdleKeys() == {}
    modifies g, g.entries
    ensures g.Valid() && g.Tracked() && fresh(g.entries - old(g.entries))
    ensures g.order == old(g.order) + [key] && g.IdleKeys() == {}
  {
    hide IsCounted, Guard.Tracked;
    var release := g.AcquireAccountSlot(key);
  }

  /** A tracker is full once as many accounts hold slots as it has places. */
  method FillTracker(perAccountMax: int, keys: seq<string>) returns (g: Guard)
    requires perAccountMax > 0 && Distinct(keys) && keys != [] && "" !in keys
    ensures fresh(g) && fresh(g.entries) && g.Valid() && g.Tracked() && g.enabled
    ensures g.perAccountMax == perAccountMax && g.trackerMax == |keys|
    ensures forall key :: key !in keys ==> !g.Room(key) && g.Held(key) == {}
  {
    g := new Guard(true, perAccountMax, |keys|);
    for i := 0 to |keys|
      invariant fresh(g) && fresh(g.entries) && g.Valid() && g.Tracked() && g.enabled
      invariant g.perAccountMax == perAccountMax && g.trackerMax == |keys|
      invariant g.order == keys[..i] && g.IdleKeys() == {}
    {
      FillNext(g, keys[i]);
    }
  }

  /** So the limit can be exceeded by any number of slots, whatever it is, and whatever the tracker's size. */
  method LimitExceeded(perAccountMax: int, keys: seq<string>, key: string, n: nat) returns (g: Guard)
    requires perAccountMax > 0 && Distinct(keys) && keys != [] && "" !in keys && key !in keys && key != ""
    ensures fresh(g) && g.enabled && g.perAccountMax == perAccountMax && g.trackerMax == |keys| && g.Valid()
    ensures |g.Held(key)| == n
  {
    hide IsTable, IsCounted;
    g := FillTracker(perAccountMax, keys);
    var got := AcquireMany(g, key, n);
  }
}
