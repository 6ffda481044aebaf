/**
 The accept-rate table and the blacklist of ChatServer/main.cpp:65-77, 137-169 and 182-238:
 who joined too often between two collections, or sent broken frames, is blacklisted.
 */
module AcceptRate {

  const MAX_ACCEPT_TPS: int := 5001
  const INT_MIN: int := -0x8000_0000

  datatype Stat = Stat(curr: int, max: int)

  datatype LeaveCode =
    | NoCode | WrongHeader | WrongHeaderCode | WrongHeaderLen | WrongHeaderChecksum | WrongRecvPostCount
    | SendFull

  /** The codes for which a leave blacklists the address. */
  predicate Blamable(code: LeaveCode) {
    code in {WrongHeaderLen, WrongHeaderCode, WrongHeaderChecksum, WrongRecvPostCount}
  }

  // ---- Specification

  /** An entry that is kept: the count starts again, the maximum may rise. */
  function Restarted(stat: Stat): Stat {
    Stat(0, if stat.curr > stat.max then stat.curr else stat.max)
  }

  /** A collection by the plain check on the count alone. */
  function Survivors(table: map<int, Stat>): map<int, Stat> {
    map ip | ip in table && table[ip].curr <= MAX_ACCEPT_TPS :: Restarted(table[ip])
  }

  function Offenders(table: map<int, Stat>): set<int> {
    set ip | ip in table && table[ip].curr > MAX_ACCEPT_TPS
  }

  function Counted(table: map<int, Stat>, ip: int): map<int, Stat> {
    table[ip := if ip in table then Stat(table[ip].curr + 1, table[ip].max) else Stat(1, INT_MIN)]
  }

  /** No entry was ever kept with a maximum above the limit. */
  predicate Limited(table: map<int, Stat>) {
    forall ip :: ip in table ==> table[ip].max <= MAX_ACCEPT_TPS
  }

  // ---- The code

  /** Whatever entry the iterator comes to next. */
  method PickOne<T>(todo: set<T>) returns (ip: T)
    requires todo != {}
    ensures ip in todo
  {
    ip :| ip in todo;
  }

  class AcceptTable {
    var stats: map<int, Stat>       // tps_accept_list
    var blacklist: map<int, int>    // address to port
    var useBlacklist: bool
    ghost var events: seq<Event>    // all that happened so far

    ghost predicate Valid()
      reads this
    {
      stats == After(events).stats && blacklist.Keys == After(events).listed && useBlacklist == InUse(events)
    }

    constructor ()
      ensures Valid() && events == []
    {
      stats, blacklist, useBlacklist, events := map[], map[], true, [];
    }

    method OnClientJoin(ip: int)
      requires Valid()
      modifies this
      ensures Valid() && events == old(events) + [Joined(ip)]
    {
      EventAdded(events, Joined(ip));
      if ip in stats {
        stats := stats[ip := stats[ip].(curr := stats[ip].curr + 1)];
      } else {
        stats := stats[ip := Stat(1, INT_MIN)];
      }
      events := events + [Joined(ip)];
    }

    /** The end of the callback, after the leave of the maps. */
    method OnClientLeave(ip: int, port: int, code: LeaveCode)
      requires Valid()
      modifies this
      ensures Valid() && events == old(events) + [Left(ip, code)]
    {
      EventAdded(events, Left(ip, code));
      if code != NoCode {
        if code != SendFull
           && (code == WrongHeaderLen || code == WrongHeaderCode
               || code == WrongHeaderChecksum || code == WrongRecvPostCount)
        {
          InsertBlacklist(ip, port);
        }
      }
      events := events + [Left(ip, code)];
    }

    /** Refused exactly when the list is in use and the address was blamed since it was last cleared. */
    method OnConnectionRequest(ip: int) returns (ok: bool)
      requires Valid()
      ensures !ok <==> InUse(events) && Blamed(events, ip)
    {
      BlacklistedIffBlamed(events, ip);
      ok := !(useBlacklist && ip in blacklist);
    }

    method InsertBlacklist(ip: int, port: int)
      modifies this`blacklist
      ensures blacklist == if useBlacklist then old(blacklist)[ip := port] else old(blacklist)
    {
      if !useBlacklist { return; }
      blacklist := blacklist[ip := port];
    }

    method ClearBlacklist()
      requires Valid()
      modifies this
      ensures Valid() && events == old(events) + [Cleared]
    {
      EventAdded(events, Cleared);
      blacklist := map[];
      events := events + [Cleared];
    }

    method ToggleBlacklist()
      requires Valid()
      modifies this
      ensures Valid() && events == old(events) + [Toggled]
    {
      EventAdded(events, Toggled);
      useBlacklist := !useBlacklist;
      events := events + [Toggled];
    }

    /** The loop body: the limit is checked only for a new maximum. */
    method CollectEntry(ip: int)
      requires ip in stats && stats[ip].max <= MAX_ACCEPT_TPS
      modifies this`stats, this`blacklist
      ensures stats == if old(stats)[ip].curr <= MAX_ACCEPT_TPS then old(stats)[ip := Restarted(old(stats)[ip])]
                       else old(stats) - {ip}
      ensures blacklist == if old(stats)[ip].curr > MAX_ACCEPT_TPS && useBlacklist then old(blacklist)[ip := 0]
                           else old(blacklist)
    {
      var curr := stats[ip].curr;
      stats := stats[ip := stats[ip].(curr := 0)];
      if curr > stats[ip].max {
        stats := stats[ip := stats[ip].(max := curr)];
        if curr > MAX_ACCEPT_TPS {
          InsertBlacklist(ip, 0);
          stats := stats - {ip};
        }
      }
      assert curr > MAX_ACCEPT_TPS ==> stats == old(stats) - {ip};
    }

    /** Entries may come in any order; an entry is erased while the loop is running. */
    method CollectEntries() returns (visits: seq<int>)
      requires Limited(stats)
      modifies this`stats, this`blacklist
      ensures stats == Survivors(old(stats))
      ensures blacklist == old(blacklist) + Listing(Offenders(old(stats)), useBlacklist)
      ensures VisitsOnce(visits, old(stats).Keys)
    {
      hide Progress, Survivors, Offenders, Listing, VisitsOnce;
      ghost var before, listed := stats, blacklist;
      var todo := stats.Keys;
      visits := [];
      ProgressBegins(before, listed, useBlacklist);
      while todo != {}
        invariant todo <= before.Keys
        invariant Progress(before, listed, useBlacklist, todo, stats, blacklist, visits)
        decreases |todo|
      {
        var ip := PickOne(todo);
        ProgressStep(before, listed, useBlacklist, todo, stats, blacklist, visits, ip);
        CollectEntry(ip);
        todo := todo - {ip};
        visits := visits + [ip];
      }
      ProgressEnds(before, listed, useBlacklist, stats, blacklist, visits);
    }

    method CollectAcceptTPS() returns (visits: seq<int>)
      requires Valid()
      modifies this
      ensures Valid() && events == old(events) + [Collected]
      ensures blacklist == old(blacklist) + Listing(Offenders(old(stats)), useBlacklist)
      ensures VisitsOnce(visits, old(stats).Keys)
    {
      hide After, InUse, Listing, Offenders, Survivors, VisitsOnce;
      CollectedAdded(events);
      visits := CollectEntries();
      events := events + [Collected];
    }
  }

  /** Each address of `ips` occurs in `visits` exactly once, and no other does. */
  ghost predicate VisitsOnce(visits: seq<int>, ips: set<int>) {
    && (forall ip :: ip in visits <==> ip in ips)
    && (forall i, j :: 0 <= i < j < |visits| ==> visits[i] != visits[j])
  }

  lemma NoVisits(ips: set<int>)
    ensures VisitsOnce([], ips - ips) && ips - {} == ips
  {
  }

  lemma VisitMore(visits: seq<int>, ips: set<int>, ip: int)
    requires VisitsOnce(visits, ips) && ip !in ips
    ensures VisitsOnce(visits + [ip], ips + {ip})
  {
  }

  function Listing(ips: set<int>, useBlacklist: bool): map<int, int> {
    map ip | ip in ips && useBlacklist :: 0
  }

  /** The table in the middle of a collection, with `todo` still to be visited. */
  function Partly(table: map<int, Stat>, todo: set<int>): map<int, Stat> {
    map ip | ip in table && (ip in todo || table[ip].curr <= MAX_ACCEPT_TPS) ::
      if ip in todo then table[ip] else Restarted(table[ip])
  }

  lemma PartlyStep(table: map<int, Stat>, todo: set<int>, ip: int)
    requires ip in todo && ip in table
    ensures ip in Partly(table, todo) && Partly(table, todo)[ip] == table[ip]
    ensures Partly(table, todo - {ip}) ==
            if table[ip].curr <= MAX_ACCEPT_TPS then Partly(table, todo)[ip := Restarted(table[ip])]
            else Partly(table, todo) - {ip}
  {
  }

  lemma PartlyEnds(table: map<int, Stat>, useBlacklist: bool)
    ensures Partly(table, table.Keys) == table && Partly(table, {}) == Survivors(table)
    ensures Listing(Offenders(table) - table.Keys, useBlacklist) == map[]
    ensures Offenders(table) - {} == Offenders(table)
  {
    assert Offenders(table) - table.Keys == {};
  }

  lemma ListingStep(table: map<int, Stat>, todo: set<int>, ip: int, useBlacklist: bool)
    requires ip in todo && ip in table
    ensures Listing(Offenders(table) - (todo - {ip}), useBlacklist) ==
            if table[ip].curr > MAX_ACCEPT_TPS && useBlacklist
            then Listing(Offenders(table) - todo, useBlacklist)[ip := 0]
            else Listing(Offenders(table) - todo, useBlacklist)
  {
  }

  /** The collection of `before` and `listed`, when `todo` is still to be visited. */
  ghost predicate Progress(before: map<int, Stat>, listed: map<int, int>, useBlacklist: bool,
      todo: set<int>, stats: map<int, Stat>, blacklist: map<int, int>, visits: seq<int>)
  {
    && stats == Partly(before, todo)
    && blacklist == listed + Listing(Offenders(before) - todo, useBlacklist)
    && VisitsOnce(visits, before.Keys - todo)
  }

  lemma ProgressBegins(before: map<int, Stat>, listed: map<int, int>, useBlacklist: bool)
    ensures Progress(before, listed, useBlacklist, before.Keys, before, listed, [])
  {
    hide VisitsOnce, Partly, Listing, Offenders, Survivors;
    NoVisits(before.Keys);
    PartlyEnds(before, useBlacklist);
  }

  lemma ProgressStep(before: map<int, Stat>, listed: map<int, int>, useBlacklist: bool,
      todo: set<int>, stats: map<int, Stat>, blacklist: map<int, int>, visits: seq<int>, ip: int)
    requires Progress(before, listed, useBlacklist, todo, stats, blacklist, visits) && ip in todo && ip in before
    ensures ip in stats && stats[ip] == before[ip]
    ensures Progress(before, listed, useBlacklist, todo - {ip},
              if stats[ip].curr <= MAX_ACCEPT_TPS then stats[ip := Restarted(stats[ip])] else stats - {ip},
              if stats[ip].curr > MAX_ACCEPT_TPS && useBlacklist then blacklist[ip := 0] else blacklist,
              visits + [ip])
  {
    hide VisitsOnce, Partly, Listing, Offenders, Restarted;
    PartlyStep(before, todo, ip);
    ListingStep(before, todo, ip, useBlacklist);
    VisitMore(visits, before.Keys - todo, ip);
    assert before.Keys - (todo - {ip}) == before.Keys - todo + {ip};
  }

  lemma ProgressEnds(before: map<int, Stat>, listed: map<int, int>, useBlacklist: bool,
      stats: map<int, Stat>, blacklist: map<int, int>, visits: seq<int>)
    requires Progress(before, listed, useBlacklist, {}, stats, blacklist, visits)
    ensures stats == Survivors(before) && blacklist == listed + Listing(Offenders(before), useBlacklist)
    ensures VisitsOnce(visits, before.Keys)
  {
    hide VisitsOnce, Partly, Listing, Offenders, Survivors;
    NoVisits(before.Keys);
    PartlyEnds(before, useBlacklist);
  }

  // ---- Whatever happens to the table and the list, in any order

  datatype Event = Joined(ip: int) | Left(ip: int, code: LeaveCode) | Collected | Cleared | Toggled

  datatype State = State(stats: map<int, Stat>, listed: set<int>)

  /** The switch that the console toggles; the list is in use at first. */
  predicate InUse(events: seq<Event>) {
    events == [] || InUse(events[..|events| - 1]) == (events[|events| - 1] != Toggled)
  }

  /** The table and the blacklisted addresses after `events`. */
  function After(events: seq<Event>): State {
    if events == [] then State(map[], {}) else
      var front := events[..|events| - 1];
      Stepped(After(front), events[|events| - 1], InUse(front))
  }

  function Stepped(s: State, event: Event, inUse: bool): State {
    match event
    case Joined(ip) => s.(stats := Counted(s.stats, ip))
    case Left(ip, code) => s.(listed := s.listed + if inUse && Blamable(code) then {ip} else {})
    case Collected => State(Survivors(s.stats), s.listed + if inUse then Offenders(s.stats) else {})
    case Cleared => s.(listed := {})
    case Toggled => s
  }

  /** The list is in use exactly when the console switched it an even number of times. */
  lemma {:induction false} InUseIffEven(events: seq<Event>)
    ensures InUse(events) <==> multiset(events)[Toggled] % 2 == 0
  {
    if events != [] {
      var front := events[..|events| - 1];
      assert events == front + [events[|front|]];
      InUseIffEven(front);
    }
  }

  lemma EventAdded(events: seq<Event>, event: Event)
    ensures After(events + [event]) == Stepped(After(events), event, InUse(events))
    ensures InUse(events + [event]) <==> InUse(events) == (event != Toggled)
  {
    assert (events + [event])[..|events|] == events;
  }

  lemma CollectedAdded(events: seq<Event>)
    ensures Limited(After(events).stats)
    ensures var s, s' := After(events), After(events + [Collected]);
            s'.stats == Survivors(s.stats) && s'.listed == s.listed + Listing(Offenders(s.stats), InUse(events)).Keys
    ensures InUse(events + [Collected]) <==> InUse(events)
  {
    hide After, InUse, Survivors, Offenders;
    EventAdded(events, Collected);
    LimitHolds(events);
  }

  /** The joins of an address since the last collection. */
  function Since(events: seq<Event>, ip: int): nat {
    if events == [] || events[|events| - 1] == Collected then 0
    else Since(events[..|events| - 1], ip) + if events[|events| - 1] == Joined(ip) then 1 else 0
  }

  /** The `i`-th event gives a reason to blacklist `ip`: too many joins, or a leave after a broken frame. */
  ghost predicate Blames(events: seq<Event>, i: nat, ip: int)
    requires i < |events|
  {
    || (events[i] == Collected && Since(events[..i], ip) > 5001)
    || events[i] == Left(ip, WrongHeaderCode) || events[i] == Left(ip, WrongHeaderLen)
    || events[i] == Left(ip, WrongHeaderChecksum) || events[i] == Left(ip, WrongRecvPostCount)
  }

  /** There was a reason while the list was in use, and the list was not cleared since. */
  ghost predicate Blamed(events: seq<Event>, ip: int) {
    exists i :: 0 <= i < |events| && Blames(events, i, ip) && InUse(events[..i]) && Cleared !in events[i..]
  }

  lemma {:induction false} CountIsSince(events: seq<Event>, ip: int)
    ensures var stats := After(events).stats;
            if ip in stats then stats[ip].curr == Since(events, ip) && stats[ip].max <= MAX_ACCEPT_TPS
            else Since(events, ip) == 0
  {
    hide InUse;
    if events != [] {
      CountIsSince(events[..|events| - 1], ip);
    }
  }

  /** The entry of `ip` was there before the `i`-th event and has not been erased since. */
  ghost predicate Tracked(events: seq<Event>, i: nat, ip: int) {
    i <= |events| && forall j :: i <= j <= |events| ==> ip in After(events[..j]).stats
  }

  /** A collection that the entry of `ip` has lived through. */
  ghost predicate Survived(events: seq<Event>, i: nat, ip: int) {
    i < |events| && events[i] == Collected && Tracked(events, i, ip)
  }

  ghost predicate IsHighest(events: seq<Event>, ip: int, highest: int) {
    && (forall i: nat :: Survived(events, i, ip) ==> Since(events[..i], ip) <= highest)
    && (highest == INT_MIN || exists i: nat :: Survived(events, i, ip) && Since(events[..i], ip) == highest)
  }

  lemma SurvivedStep(events: seq<Event>, event: Event, ip: int)
    requires ip in After(events + [event]).stats
    ensures forall i: nat :: i < |events| ==>
              (Survived(events + [event], i, ip) <==> Survived(events, i, ip)) && (events + [event])[..i] == events[..i]
    ensures Survived(events + [event], |events|, ip) <==> event == Collected && ip in After(events).stats
    ensures (events + [event])[..|events|] == events
  {
    hide After;
    var all := events + [event];
    Prefixes(events, event);
    assert all[..|all|] == all && events[..|events|] == events;
    forall i: nat | i < |events|
      ensures (Survived(all, i, ip) <==> Survived(events, i, ip)) && all[..i] == events[..i]
    {
      TrackedStep(events, event, i, ip);
    }
    TrackedStep(events, event, |events|, ip);
  }

  lemma TrackedStep(events: seq<Event>, event: Event, i: nat, ip: int)
    requires ip in After(events + [event]).stats && i <= |events|
    ensures Tracked(events + [event], i, ip) <==> Tracked(events, i, ip)
    ensures i == |events| ==> (Tracked(events, i, ip) <==> ip in After(events).stats)
  {
    hide After;
    var all := events + [event];
    assert all[..|all|] == all && events[..|events|] == events;
    assert forall j :: 0 <= j <= |events| ==> all[..j] == events[..j];
    if Tracked(all, i, ip) {
      assert forall j :: i <= j <= |events| ==> events[..j] == all[..j];
    }
  }

  /** The maximum of an entry is the highest count of joins that a collection has found in it, if one has. */
  lemma {:induction false} MaxIsHighest(events: seq<Event>, ip: int)
    requires ip in After(events).stats
    ensures IsHighest(events, ip, After(events).stats[ip].max)
  {
    if events != [] {
      var front, event := events[..|events| - 1], events[|events| - 1];
      assert events == front + [event];
      SurvivedStep(front, event, ip);
      CountIsSince(front, ip);
      EventAdded(front, event);
      if ip in After(front).stats {
        MaxIsHighest(front, ip);
        HighestStep(front, event, ip, After(front).stats[ip].max);
      } else {
        NoneSurvived(front, ip);
        HighestStep(front, event, ip, INT_MIN);
      }
    }
  }

  lemma NoneSurvived(events: seq<Event>, ip: int)
    requires ip !in After(events).stats
    ensures IsHighest(events, ip, INT_MIN)
  {
    assert events[..|events|] == events;
  }

  lemma HighestStep(events: seq<Event>, event: Event, ip: int, highest: int)
    requires IsHighest(events, ip, highest) && ip in After(events + [event]).stats
    ensures IsHighest(events + [event], ip,
              if event == Collected && ip in After(events).stats && Since(events, ip) > highest then Since(events, ip)
              else highest)
  {
    hide After, Since, Tracked;
    SurvivedStep(events, event, ip);
    hide Survived;
    var all := events + [event];
    var found := Since(events, ip);
    var higher := if event == Collected && ip in After(events).stats && found > highest then found else highest;
    forall i: nat | Survived(all, i, ip)
      ensures Since(all[..i], ip) <= higher
    {
      InRange(all, i, ip);
      if i < |events| { assert Survived(events, i, ip); }
    }
    if higher == highest && highest != INT_MIN {
      var i: nat :| Survived(events, i, ip) && Since(events[..i], ip) == highest;
      InRange(events, i, ip);
      assert Survived(all, i, ip) && Since(all[..i], ip) == highest;
    } else if higher != highest {
      assert Survived(all, |events|, ip) && Since(all[..|events|], ip) == higher;
    }
  }

  lemma InRange(events: seq<Event>, i: nat, ip: int)
    ensures Survived(events, i, ip) ==> i < |events|
  {
  }

  lemma LimitHolds(events: seq<Event>)
    ensures Limited(After(events).stats)
  {
    hide After;
    forall ip | ip in After(events).stats
      ensures After(events).stats[ip].max <= MAX_ACCEPT_TPS
    {
      CountIsSince(events, ip);
    }
  }

  lemma Prefixes(events: seq<Event>, event: Event)
    ensures (events + [event])[..|events|] == events && (events + [event])[|events|..] == [event]
    ensures forall i :: 0 <= i < |events| ==>
              (events + [event])[..i] == events[..i] && (events + [event])[i..] == events[i..] + [event]
  {
  }

  lemma StillBlamed(events: seq<Event>, event: Event, ip: int)
    requires event != Cleared && (Blamed(events, ip) || (Blames(events + [event], |events|, ip) && InUse(events)))
    ensures Blamed(events + [event], ip)
  {
    hide InUse, Since;
    Prefixes(events, event);
    if Blamed(events, ip) {
      var i :| 0 <= i < |events| && Blames(events, i, ip) && InUse(events[..i]) && Cleared !in events[i..];
      assert Blames(events + [event], i, ip);
    }
  }

  lemma WasBlamed(events: seq<Event>, event: Event, ip: int)
    requires Blamed(events + [event], ip)
    ensures event != Cleared && (Blamed(events, ip) || (Blames(events + [event], |events|, ip) && InUse(events)))
  {
    hide InUse, Since;
    var all := events + [event];
    Prefixes(events, event);
    var i :| 0 <= i < |all| && Blames(all, i, ip) && InUse(all[..i]) && Cleared !in all[i..];
    assert event in all[i..] by { assert all[i..][|events| - i] == event; }
    if i < |events| { assert Blames(events, i, ip); }
  }

  lemma BlamedStep(events: seq<Event>, event: Event, ip: int)
    ensures Blamed(events + [event], ip) <==>
            event != Cleared && (Blamed(events, ip) || (Blames(events + [event], |events|, ip) && InUse(events)))
  {
    hide InUse, Since, Blamed, Blames;
    if Blamed(events + [event], ip) {
      WasBlamed(events, event, ip);
    } else if event != Cleared && (Blamed(events, ip) || (Blames(events + [event], |events|, ip) && InUse(events))) {
      StillBlamed(events, event, ip);
    }
  }

  /**
   Over every sequence of events: an address is on the blacklist exactly when, while the list
   was in use and after it was last cleared, an interval between collections saw more joins
   from it than the limit, or one of its sessions left after a broken frame.
   */
  lemma {:induction false} BlacklistedIffBlamed(events: seq<Event>, ip: int)
    ensures ip in After(events).listed <==> Blamed(events, ip)
  {
    hide InUse, Since;
    if events != [] {
      var front := events[..|events| - 1];
      assert events == front + [events[|front|]];
      BlacklistedIffBlamed(front, ip);
      CountIsSince(front, ip);
      BlamedStep(front, events[|front|], ip);
    }
  }

  /** Right after a collection every entry is at zero and below the limit. */
  lemma CollectedAtZero(events: seq<Event>, ip: int)
    requires ip in After(events + [Collected]).stats
    ensures After(events + [Collected]).stats[ip].curr == 0
    ensures 0 <= After(events + [Collected]).stats[ip].max <= MAX_ACCEPT_TPS
  {
    assert (events + [Collected])[..|events|] == events;
    CountIsSince(events, ip);
    CountIsSince(events + [Collected], ip);
  }
}
