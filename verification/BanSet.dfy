/** The gateway's ban list: an open-addressing hash set with linear probing, and the table of
    consecutive failures that feeds it. */
module BanSet {
  import opened Common

  const BAN_TABLE_SIZE: nat := 4096
  const CONSEC_FAIL_TABLE_SIZE: nat := 256
  const BAN_CONSEC_MAX: nat := 5

  type Ip = x: int | 0 <= x < 0x1_0000_0000 witness 0

  /** Loopback and private addresses are never banned. */
  predicate IsWhitelisted(ip: Ip) {
    ip / 0x100_0000 == 127 || ip / 0x1_0000 == 0xC0A8
  }

  datatype BanSlot = BanSlot(ip: Ip, occupied: bool)

  // ---------------------------------------------------------------- probing

  /** The i-th slot on the probe path of an address. */
  function Probe(ip: Ip, i: nat): (slot: nat)
    ensures slot < BAN_TABLE_SIZE
  {
    (ip % BAN_TABLE_SIZE + i) % BAN_TABLE_SIZE
  }

  /** How far along its path a slot lies. */
  function Distance(ip: Ip, slot: nat): nat
    requires slot < BAN_TABLE_SIZE
  {
    (slot - ip % BAN_TABLE_SIZE + BAN_TABLE_SIZE) % BAN_TABLE_SIZE
  }

  lemma ProbeDistance(ip: Ip, slot: nat)
    requires slot < BAN_TABLE_SIZE
    ensures Distance(ip, slot) < BAN_TABLE_SIZE && Probe(ip, Distance(ip, slot)) == slot
  {
  }

  lemma DistanceProbe(ip: Ip, i: nat)
    requires i < BAN_TABLE_SIZE
    ensures Probe(ip, i) < BAN_TABLE_SIZE && Distance(ip, Probe(ip, i)) == i
  {
  }

  /** Everything before an entry on its own path is occupied, by other addresses. */
  predicate Reachable(t: seq<BanSlot>, slot: nat)
    requires |t| == BAN_TABLE_SIZE && slot < BAN_TABLE_SIZE
  {
    t[slot].occupied ==>
      forall i: nat | i < Distance(t[slot].ip, slot) ::
        t[Probe(t[slot].ip, i)].occupied && t[Probe(t[slot].ip, i)].ip != t[slot].ip
  }

  ghost predicate WellProbed(t: seq<BanSlot>) {
    |t| == BAN_TABLE_SIZE && forall slot: nat | slot < BAN_TABLE_SIZE :: Reachable(t, slot)
  }

  ghost function Members(t: seq<BanSlot>): set<Ip> {
    set slot | 0 <= slot < |t| && t[slot].occupied :: t[slot].ip
  }

  ghost predicate HasRoom(t: seq<BanSlot>) {
    exists slot :: 0 <= slot < |t| && !t[slot].occupied
  }

  /** A search may stop at the first free slot of the path: the address is not in the set. */
  lemma StopAtFree(t: seq<BanSlot>, ip: Ip, i: nat)
    requires WellProbed(t) && i < BAN_TABLE_SIZE
    requires forall k: nat | k < i :: t[Probe(ip, k)].occupied && t[Probe(ip, k)].ip != ip
    requires !t[Probe(ip, i)].occupied
    ensures ip !in Members(t)
  {
    hide Probe, Distance;
    forall slot | 0 <= slot < |t| && t[slot].occupied ensures t[slot].ip != ip {
      assert Reachable(t, slot);
      if t[slot].ip == ip {
        ProbeDistance(ip, slot);
      }
    }
  }

  /** A search over the whole path sees every slot. */
  lemma WholePathSeen(t: seq<BanSlot>, ip: Ip)
    requires |t| == BAN_TABLE_SIZE
    requires forall k: nat | k < BAN_TABLE_SIZE :: t[Probe(ip, k)].occupied && t[Probe(ip, k)].ip != ip
    ensures ip !in Members(t) && !HasRoom(t)
  {
    hide Probe, Distance;
    forall slot: nat | slot < |t| ensures t[slot].occupied && t[slot].ip != ip {
      ProbeDistance(ip, slot);
    }
  }

  /** Filling the first free slot of the path adds the address and keeps every path intact. */
  lemma FillFree(t: seq<BanSlot>, ip: Ip, i: nat)
    requires WellProbed(t) && i < BAN_TABLE_SIZE
    requires forall k: nat | k < i :: t[Probe(ip, k)].occupied && t[Probe(ip, k)].ip != ip
    requires !t[Probe(ip, i)].occupied
    ensures
      var t' := t[Probe(ip, i) := BanSlot(ip, true)];
      WellProbed(t') && Members(t') == Members(t) + {ip}
  {
    hide Probe, Distance;
    DistanceProbe(ip, i);
    var free := Probe(ip, i);
    var t' := t[free := BanSlot(ip, true)];
    forall slot: nat | slot < BAN_TABLE_SIZE ensures Reachable(t', slot) {
      assert Reachable(t, slot);
      if slot == free {
        forall k: nat | k < Distance(ip, slot) ensures t'[Probe(ip, k)].occupied && t'[Probe(ip, k)].ip != ip {
          assert t[Probe(ip, k)].occupied;
        }
      } else if t[slot].occupied {
        var other := t[slot].ip;
        forall k: nat | k < Distance(other, slot)
          ensures t'[Probe(other, k)].occupied && t'[Probe(other, k)].ip != other {
          assert t[Probe(other, k)].occupied;
        }
      }
    }
    MembersAfterFill(t, free, ip);
  }

  lemma MembersAfterFill(t: seq<BanSlot>, free: nat, ip: Ip)
    requires free < |t| && !t[free].occupied
    ensures Members(t[free := BanSlot(ip, true)]) == Members(t) + {ip}
  {
    var t' := t[free := BanSlot(ip, true)];
    forall x | x in Members(t) + {ip} ensures x in Members(t') {
      if x == ip {
        assert t'[free].occupied && t'[free].ip == ip;
      } else {
        var slot :| 0 <= slot < |t| && t[slot].occupied && t[slot].ip == x;
        assert t'[slot] == t[slot];
      }
    }
    forall x | x in Members(t') ensures x in Members(t) + {ip} {
      var slot :| 0 <= slot < |t'| && t'[slot].occupied && t'[slot].ip == x;
      if slot != free {
        assert t[slot] == t'[slot];
      }
    }
  }

  // ---------------------------------------------------------------- consecutive failures

  /** The history of authentication results. */
  datatype Attempt = Failure(ip: Ip) | Success(ip: Ip)

  function FailSlot(ip: Ip): nat { ip % CONSEC_FAIL_TABLE_SIZE }

  /** A failure that pushes `ip` out of its slot. */
  predicate Evicts(a: Attempt, ip: Ip) {
    a.Failure? && !IsWhitelisted(a.ip) && a.ip != ip && FailSlot(a.ip) == FailSlot(ip)
  }

  /** The failures of `ip` since it took its slot, last succeeded or was last banned. */
  function Streak(h: seq<Attempt>, ip: Ip): nat {
    if h == [] || IsWhitelisted(ip) then 0
    else
      var before := Streak(Front(h), ip);
      var a := Last(h);
      if a == Failure(ip) then if before + 1 >= BAN_CONSEC_MAX then 0 else before + 1
      else if a == Success(ip) || Evicts(a, ip) then 0
      else before
  }

  function Failures(h: seq<Attempt>, ip: Ip): nat {
    if h == [] then 0 else Failures(Front(h), ip) + if Last(h) == Failure(ip) then 1 else 0
  }

  /** The last `Streak` failures of an address are recent: nothing has come between that
      would have reset the count. */
  lemma {:induction false} StreakIsUnbroken(h: seq<Attempt>, ip: Ip) returns (from: nat)
    ensures from <= |h| && Failures(h[from..], ip) == Streak(h, ip)
    ensures Success(ip) !in h[from..] && forall a | a in h[from..] :: !Evicts(a, ip)
    ensures Streak(h, ip) < BAN_CONSEC_MAX
    decreases |h|
  {
    if h == [] || IsWhitelisted(ip) || Streak(h, ip) == 0 {
      from := |h|;
    } else {
      from := StreakIsUnbroken(Front(h), ip);
      assert h[from..] == Front(h)[from..] + [Last(h)];
      assert Front(h[from..]) == Front(h)[from..];
    }
  }

  /** The failure that gets an address banned is its fifth with no success between. */
  lemma BanMeansFiveFailures(h: seq<Attempt>, ip: Ip) returns (from: nat)
    requires Streak(h, ip) + 1 >= BAN_CONSEC_MAX
    ensures from <= |h| && Failures(h[from..] + [Failure(ip)], ip) == BAN_CONSEC_MAX
    ensures Success(ip) !in h[from..]
  {
    from := StreakIsUnbroken(h, ip);
    assert Front(h[from..] + [Failure(ip)]) == h[from..];
  }

  datatype FailEntry = FailEntry(ip: Ip, failures: nat)

  /** The table holds every address's streak: in its slot if it owns it, and zero if not. */
  ghost predicate Tallies(t: seq<FailEntry>, h: seq<Attempt>) {
    |t| == CONSEC_FAIL_TABLE_SIZE &&
    forall ip: Ip | !IsWhitelisted(ip) ::
      Streak(h, ip) == if t[FailSlot(ip)].ip == ip then t[FailSlot(ip)].failures else 0
  }

  // ---------------------------------------------------------------- the code

  class BanList {
    var banTable: array<BanSlot>
    var consecFail: array<FailEntry>
    ghost var history: seq<Attempt>

    ghost predicate Valid()
      reads this, banTable, consecFail
    {
      && WellProbed(banTable[..])
      && (forall ip | ip in Members(banTable[..]) :: !IsWhitelisted(ip))
      && Tallies(consecFail[..], history)
    }

    ghost function Banned(): set<Ip>
      reads this, banTable
    {
      Members(banTable[..])
    }

    /** `banlist_load` on the addresses of the file, into zeroed tables. */
    constructor Load(file: seq<Ip>)
      ensures Valid() && history == []
      ensures forall ip | ip in Banned() :: ip in file && !IsWhitelisted(ip)
      ensures HasRoom(banTable[..]) ==> forall ip | ip in file && !IsWhitelisted(ip) :: ip in Banned()
    {
      banTable := new BanSlot[BAN_TABLE_SIZE](_ => BanSlot(0, false));
      consecFail := new FailEntry[CONSEC_FAIL_TABLE_SIZE](_ => FailEntry(0, 0));
      history := [];
      new;
      for n := 0 to |file|
        modifies banTable
        invariant WellProbed(banTable[..])
        invariant forall ip | ip in Members(banTable[..]) :: ip in file[..n] && !IsWhitelisted(ip)
        invariant HasRoom(banTable[..]) ==> forall ip | ip in file[..n] && !IsWhitelisted(ip) :: ip in Members(banTable[..])
        invariant Tallies(consecFail[..], history)
      {
        assert file[..n + 1] == file[..n] + [file[n]];
        if !IsWhitelisted(file[n]) {
          BanInsertMemory(file[n]);
        }
      }
      assert file[..|file|] == file;
    }

    method BanCheck(ip: Ip) returns (banned: bool)
      requires WellProbed(banTable[..])
      ensures banned <==> !IsWhitelisted(ip) && ip in Banned()
    {
      hide Probe;
      if IsWhitelisted(ip) {
        return false;
      }
      for i := 0 to BAN_TABLE_SIZE
        invariant forall k: nat | k < i :: banTable[..][Probe(ip, k)].occupied && banTable[..][Probe(ip, k)].ip != ip
      {
        DistanceProbe(ip, i);
        var slot := Probe(ip, i);
        if !banTable[slot].occupied {
          StopAtFree(banTable[..], ip, i);
          return false;
        }
        if banTable[slot].ip == ip {
          assert banTable[..][slot].occupied;
          return true;
        }
      }
      WholePathSeen(banTable[..], ip);
      return false;
    }

    /** No ban is ever lost; a new one is missing only if the table was full. */
    method BanInsertMemory(ip: Ip)
      requires WellProbed(banTable[..])
      modifies banTable
      ensures WellProbed(banTable[..])
      ensures Members(banTable[..]) ==
              if old(HasRoom(banTable[..])) then old(Members(banTable[..])) + {ip} else old(Members(banTable[..]))
      ensures HasRoom(banTable[..]) ==> old(HasRoom(banTable[..]))
    {
      hide Probe, Reachable;
      ghost var before := banTable[..];
      for i := 0 to BAN_TABLE_SIZE
        invariant banTable[..] == before
        invariant forall k: nat | k < i :: before[Probe(ip, k)].occupied && before[Probe(ip, k)].ip != ip
      {
        DistanceProbe(ip, i);
        var slot := Probe(ip, i);
        assert before[slot] == banTable[slot];
        if !banTable[slot].occupied {
          FillFree(before, ip, i);
          banTable[slot] := BanSlot(ip, true);
          assert banTable[..] == before[slot := BanSlot(ip, true)];
          return;
        }
        if banTable[slot].ip == ip {
          assert ip in Members(before);
          return;
        }
      }
      WholePathSeen(before, ip);
    }

    method BanAdd(ip: Ip)
      requires Valid()
      modifies banTable
      ensures Valid()
      ensures Banned() == if !IsWhitelisted(ip) && old(HasRoom(banTable[..])) then old(Banned()) + {ip} else old(Banned())
      ensures HasRoom(banTable[..]) ==> old(HasRoom(banTable[..]))
    {
      if IsWhitelisted(ip) {
        return;
      }
      var present := BanCheck(ip);
      if present {
        return;
      }
      BanInsertMemory(ip);
    }

    method ConsecFailRecord(ip: Ip)
      requires Valid()
      modifies this`history, banTable, consecFail
      ensures Valid() && history == old(history) + [Failure(ip)]
      ensures
        var fifth := !IsWhitelisted(ip) && Streak(old(history), ip) + 1 >= BAN_CONSEC_MAX;
        Banned() == if fifth && old(HasRoom(banTable[..])) then old(Banned()) + {ip} else old(Banned())
      ensures HasRoom(banTable[..]) ==> old(HasRoom(banTable[..]))
    {
      ghost var h := history;
      ghost var t := consecFail[..];
      history := history + [Failure(ip)];
      if IsWhitelisted(ip) {
        WhitelistedFailure(t, h, ip);
        return;
      }
      var idx := ip % CONSEC_FAIL_TABLE_SIZE;
      if consecFail[idx].ip != ip {
        consecFail[idx] := FailEntry(ip, 0);
      }
      consecFail[idx] := consecFail[idx].(failures := consecFail[idx].failures + 1);
      if consecFail[idx].failures >= BAN_CONSEC_MAX {
        consecFail[idx] := consecFail[idx].(failures := 0);
        RecordedFailure(t, h, ip);
        assert consecFail[..] == t[idx := FailEntry(ip, 0)];
        BanAdd(ip);
      } else {
        RecordedFailure(t, h, ip);
        assert consecFail[..] == t[idx := consecFail[idx]];
      }
    }

    method ConsecFailClear(ip: Ip)
      requires Valid()
      modifies this`history, consecFail
      ensures Valid() && history == old(history) + [Success(ip)]
      ensures Banned() == old(Banned())
    {
      ghost var h := history;
      ghost var t := consecFail[..];
      history := history + [Success(ip)];
      var idx := ip % CONSEC_FAIL_TABLE_SIZE;
      ClearedFailures(t, h, ip);
      if consecFail[idx].ip == ip {
        consecFail[idx] := consecFail[idx].(failures := 0);
        assert consecFail[..] == t[idx := FailEntry(ip, 0)];
      }
    }
  }

  // ---------------------------------------------------------------- tallies

  lemma StreakSnoc(h: seq<Attempt>, a: Attempt, ip: Ip)
    requires !IsWhitelisted(ip)
    ensures Streak(h + [a], ip) ==
            if a == Failure(ip) then if Streak(h, ip) + 1 >= BAN_CONSEC_MAX then 0 else Streak(h, ip) + 1
            else if a == Success(ip) || Evicts(a, ip) then 0
            else Streak(h, ip)
  {
    assert Front(h + [a]) == h;
  }

  lemma WhitelistedFailure(t: seq<FailEntry>, h: seq<Attempt>, ip: Ip)
    requires Tallies(t, h) && IsWhitelisted(ip)
    ensures Tallies(t, h + [Failure(ip)])
  {
    hide Streak;
    forall x: Ip | !IsWhitelisted(x)
      ensures Streak(h + [Failure(ip)], x) == if t[FailSlot(x)].ip == x then t[FailSlot(x)].failures else 0 {
      StreakSnoc(h, Failure(ip), x);
    }
  }

  lemma RecordedFailure(t: seq<FailEntry>, h: seq<Attempt>, ip: Ip)
    requires Tallies(t, h) && !IsWhitelisted(ip)
    ensures
      var owned := if t[FailSlot(ip)].ip == ip then t[FailSlot(ip)].failures else 0;
      && owned == Streak(h, ip)
      && Tallies(t[FailSlot(ip) := FailEntry(ip, if owned + 1 >= BAN_CONSEC_MAX then 0 else owned + 1)],
                 h + [Failure(ip)])
  {
    hide Streak;
    var owned := if t[FailSlot(ip)].ip == ip then t[FailSlot(ip)].failures else 0;
    assert owned == Streak(h, ip);
    var t' := t[FailSlot(ip) := FailEntry(ip, if owned + 1 >= BAN_CONSEC_MAX then 0 else owned + 1)];
    forall x: Ip | !IsWhitelisted(x)
      ensures Streak(h + [Failure(ip)], x) == if t'[FailSlot(x)].ip == x then t'[FailSlot(x)].failures else 0 {
      StreakSnoc(h, Failure(ip), x);
    }
  }

  lemma ClearedFailures(t: seq<FailEntry>, h: seq<Attempt>, ip: Ip)
    requires Tallies(t, h)
    ensures Tallies(if t[FailSlot(ip)].ip == ip then t[FailSlot(ip) := FailEntry(ip, 0)] else t, h + [Success(ip)])
  {
    hide Streak;
    var t' := if t[FailSlot(ip)].ip == ip then t[FailSlot(ip) := FailEntry(ip, 0)] else t;
    forall x: Ip | !IsWhitelisted(x)
      ensures Streak(h + [Success(ip)], x) == if t'[FailSlot(x)].ip == x then t'[FailSlot(x)].failures else 0 {
      StreakSnoc(h, Success(ip), x);
    }
  }

  // ---------------------------------------------------------------- five failures

  /** The address a.b.c.d. */
  function Dotted(a: nat, b: nat, c: nat, d: nat): Ip
    requires a < 256 && b < 256 && c < 256 && d < 256
  {
    a * 16777216 + b * 65536 + c * 256 + d
  }

  /** The whitelist is 127.x.x.x and 192.168.x.x. */
  lemma WhitelistIs(a: nat, b: nat, c: nat, d: nat)
    requires a < 256 && b < 256 && c < 256 && d < 256
    ensures IsWhitelisted(Dotted(a, b, c, d)) <==> a == 127 || (a == 192 && b == 168)
  {
  }

  /** A run of attempts with five failures of an address, the last attempt being one, and in between
      neither a success of it nor a failure of another address with the same remainder modulo
      256, whitelisted ones aside. */
  ghost predicate FiveFailures(run: seq<Attempt>, ip: Ip) {
    && run != [] && Last(run) == Failure(ip) && Failures(run, ip) == 5
    && Success(ip) !in run
    && forall other: Ip | Failure(other) in run && other % 256 == ip % 256 :: other == ip || IsWhitelisted(other)
  }

  /** Attempt `j` of the run gets the address banned. */
  predicate Bans(g: seq<Attempt>, run: seq<Attempt>, j: nat, ip: Ip)
    requires j < |run|
  {
    run[j] == Failure(ip) && !IsWhitelisted(ip) && Streak(g + run[..j], ip) + 1 >= BAN_CONSEC_MAX
  }

  lemma {:induction false} StreakGrows(g: seq<Attempt>, run: seq<Attempt>, ip: Ip, j: nat)
    requires !IsWhitelisted(ip) && j <= |run| && Success(ip) !in run
    requires forall other: Ip | Failure(other) in run && other % 256 == ip % 256 :: other == ip || IsWhitelisted(other)
    requires forall i | 0 <= i < j :: !Bans(g, run, i, ip)
    ensures Streak(g + run[..j], ip) >= Failures(run[..j], ip)
  {
    if j > 0 {
      StreakGrows(g, run, ip, j - 1);
      var a := run[j - 1];
      assert a in run;
      assert run[..j] == run[..j - 1] + [a];
      assert Front(run[..j]) == run[..j - 1];
      assert g + run[..j] == (g + run[..j - 1]) + [a];
      StreakSnoc(g + run[..j - 1], a, ip);
      hide Streak, Failures;
      assert !Bans(g, run, j - 1, ip);
    }
  }

  /** Whatever has happened before, an address that is not whitelisted is banned by its fifth such
      failure at the latest. */
  lemma FiveFailuresBan(g: seq<Attempt>, run: seq<Attempt>, ip: Ip)
    requires FiveFailures(run, ip) && !IsWhitelisted(ip)
    ensures exists j: nat :: j < |run| && Bans(g, run, j, ip)
  {
    hide Streak;
    var n: nat := |run| - 1;
    if forall j: nat | j < n :: !Bans(g, run, j, ip) {
      StreakGrows(g, run, ip, n);
      assert Front(run) == run[..n];
      assert Bans(g, run, n, ip);
    }
  }

  /** The gateway's results, recorded one after the other: every address with five such failures is
      banned in the end, unless the table is full, and none is banned that had less. */
  method RecordAll(list: BanList, run: seq<Attempt>)
    requires list.Valid()
    modifies list`history, list.banTable, list.consecFail
    ensures list.Valid() && list.history == old(list.history) + run
    ensures old(list.Banned()) <= list.Banned()
    ensures HasRoom(list.banTable[..]) ==>
      forall ip: Ip | FiveFailures(run, ip) && !IsWhitelisted(ip) :: ip in list.Banned()
    ensures forall ip | ip in list.Banned() && ip !in old(list.Banned()) ::
      exists j: nat :: j < |run| && Bans(old(list.history), run, j, ip)
  {
    hide FiveFailures, Streak;
    ghost var g := list.history;
    for n := 0 to |run|
      invariant list.Valid() && list.history == g + run[..n]
      invariant old(list.Banned()) <= list.Banned()
      invariant HasRoom(list.banTable[..]) ==>
        forall j: nat, ip: Ip | j < n && Bans(g, run, j, ip) :: ip in list.Banned()
      invariant forall ip | ip in list.Banned() && ip !in old(list.Banned()) ::
        exists j: nat :: j < n && Bans(g, run, j, ip)
    {
      assert run[..n + 1] == run[..n] + [run[n]];
      ghost var before := list.Banned();
      match run[n]
      case Failure(ip) =>
        list.ConsecFailRecord(ip);
        assert ip in list.Banned() && ip !in before ==> Bans(g, run, n, ip);
      case Success(ip) => list.ConsecFailClear(ip);
    }
    assert run[..|run|] == run;
    forall ip: Ip | FiveFailures(run, ip) && !IsWhitelisted(ip) && HasRoom(list.banTable[..]) ensures ip in list.Banned() {
      FiveFailuresBan(g, run, ip);
    }
  }
}
