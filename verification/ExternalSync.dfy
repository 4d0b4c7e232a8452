/** Which profiles are synced by someone else, and what listeners have been told about it. */
module ExternalSyncs {
  import opened Wrappers

  // What a report looks at. An account id of 0 stands for no account.
  datatype Profile = Profile(
    name: string,
    account: int,
    client: string,
    externally: bool,
    duringRush: bool,
    inRush: bool)

  // One signal. Listeners get the account, the client and the value; the name of the profile that was
  // reported on is history.
  datatype Told = Told(name: string, account: int, client: string, value: bool)

  datatype State = State(backup: bool, status: map<string, bool>, trace: seq<Told>)

  // An absent flag counts as false.
  function Flag(st: State, name: string): bool {
    name in st.status && st.status[name]
  }

  function Signal(p: Profile, value: bool): Told {
    Told(p.name, p.account, p.client, value)
  }

  function Tell(st: State, p: Profile, value: bool): State {
    st.(trace := st.trace + [Signal(p, value)])
  }

  function Store(st: State, name: string, value: bool): State {
    st.(status := st.status[name := value])
  }

  function Report(st: State, p: Profile, force: bool): State {
    if p.account == 0 then st
    else if st.backup then
      if Flag(st, p.name) || force then Tell(Store(st, p.name, false), p, false) else st
    else if p.externally then
      if !Flag(st, p.name) then Tell(Store(st, p.name, true), p, true)
      else if force then Tell(st, p, true)
      else st
    else if p.duringRush then
      if p.name !in st.status || st.status[p.name] != p.inRush then Tell(Store(st, p.name, p.inRush), p, p.inRush)
      else if force then Tell(st, p, p.inRush)
      else st
    else if p.name in st.status then Tell(st.(status := st.status - {p.name}), p, false)
    else if force then Tell(st, p, false)
    else st
  }

  // The profile is being removed.
  function RemoveStatus(st: State, p: Profile): State {
    if p.account == 0 || p.name !in st.status then st
    else (if st.status[p.name] then Tell(st, p, false) else st).(status := st.status - {p.name})
  }

  // The profiles that can be loaded, by name.
  type Loadable = map<string, Profile>

  function ReportEach(st: State, names: seq<string>, loadable: Loadable): State
    decreases names
  {
    if names == [] then st
    else ReportEach(if names[0] in loadable then Report(st, loadable[names[0]], false) else st, names[1..], loadable)
  }

  // `order` is the order in which the tracked profiles are walked.
  function BackupStarts(st: State, order: seq<string>, loadable: Loadable): State {
    ReportEach(st.(backup := true), order, loadable)
  }

  function ReportAll(st: State, profiles: seq<Profile>): State
    decreases profiles
  {
    if profiles == [] then st else ReportAll(Report(st, profiles[0], true), profiles[1..])
  }

  // A new scheduler reports on every profile there is.
  function BackupFinishes(st: State, profiles: seq<Profile>): State {
    ReportAll(st.(backup := false), profiles)
  }

  datatype Event =
    | Reported(profile: Profile, force: bool)
    | Removed(profile: Profile)
    | BackupStarted(order: seq<string>, loadable: Loadable)
    | BackupFinished(profiles: seq<Profile>)

  function Step(st: State, e: Event): State {
    match e
    case Reported(p, force) => Report(st, p, force)
    case Removed(p) => RemoveStatus(st, p)
    case BackupStarted(order, loadable) => BackupStarts(st, order, loadable)
    case BackupFinished(profiles) => BackupFinishes(st, profiles)
  }

  const NOTHING_TOLD := State(false, map[], [])

  function After(run: seq<Event>): State {
    if run == [] then NOTHING_TOLD else Step(After(run[..|run| - 1]), run[|run| - 1])
  }

  function LastTold(trace: seq<Told>, name: string): bool {
    if trace == [] then false
    else
      var t := trace[|trace| - 1];
      if t.name == name then t.value else LastTold(trace[..|trace| - 1], name)
  }

  ghost predicate Faithful(st: State, name: string) {
    Flag(st, name) == LastTold(st.trace, name)
  }

  lemma TellIsLast(trace: seq<Told>, t: Told, name: string)
    ensures LastTold(trace + [t], name) == if t.name == name then t.value else LastTold(trace, name)
  {
    assert (trace + [t])[..|trace|] == trace;
  }

  lemma ReportKeepsFaithful(st: State, p: Profile, force: bool, name: string)
    requires Faithful(st, name)
    ensures Faithful(Report(st, p, force), name)
  {
    hide LastTold;
    forall value {
      TellIsLast(st.trace, Signal(p, value), name);
    }
  }

  lemma {:induction false} ReportEachKeepsFaithful(st: State, names: seq<string>, loadable: Loadable, name: string)
    requires Faithful(st, name)
    ensures Faithful(ReportEach(st, names, loadable), name)
    decreases names
  {
    hide Report, Faithful;
    if names != [] {
      if names[0] in loadable {
        ReportKeepsFaithful(st, loadable[names[0]], false, name);
      }
      ReportEachKeepsFaithful(if names[0] in loadable then Report(st, loadable[names[0]], false) else st,
                              names[1..], loadable, name);
    }
  }

  lemma {:induction false} ReportAllKeepsFaithful(st: State, profiles: seq<Profile>, name: string)
    requires Faithful(st, name)
    ensures Faithful(ReportAll(st, profiles), name)
    decreases profiles
  {
    hide Report, Faithful;
    if profiles != [] {
      ReportKeepsFaithful(st, profiles[0], true, name);
      ReportAllKeepsFaithful(Report(st, profiles[0], true), profiles[1..], name);
    }
  }

  lemma StepKeepsFaithful(st: State, e: Event, name: string)
    requires Faithful(st, name)
    ensures Faithful(Step(st, e), name)
  {
    hide Report, ReportEach, ReportAll, LastTold;
    match e {
      case Reported(p, force) =>
        ReportKeepsFaithful(st, p, force, name);
      case Removed(p) =>
        TellIsLast(st.trace, Signal(p, false), name);
      case BackupStarted(order, loadable) =>
        ReportEachKeepsFaithful(st.(backup := true), order, loadable, name);
      case BackupFinished(profiles) =>
        ReportAllKeepsFaithful(st.(backup := false), profiles, name);
    }
  }

  /** At all times the stored flag of a profile is what listeners were last told about it. */
  lemma {:induction false} FlagIsLastTold(run: seq<Event>, name: string)
    ensures Flag(After(run), name) == LastTold(After(run).trace, name)
  {
    hide Step;
    if run != [] {
      FlagIsLastTold(run[..|run| - 1], name);
      StepKeepsFaithful(After(run[..|run| - 1]), run[|run| - 1], name);
    }
  }

  function Effective(backup: bool, p: Profile): bool {
    !backup && (p.externally || (p.duringRush && p.inRush))
  }

  /** A report leaves the profile's flag at its effective value, says so if that is a change or if it
      is forced to, and concerns no other profile. */
  lemma ReportIsEffective(st: State, p: Profile, force: bool)
    requires p.account != 0
    ensures var st1 := Report(st, p, force);
            && Flag(st1, p.name) == Effective(st.backup, p)
            && (force || Flag(st, p.name) != Flag(st1, p.name) ==>
                  st1.trace == st.trace + [Signal(p, Effective(st.backup, p))])
            && (st1.trace == st.trace || st1.trace == st.trace + [Signal(p, Effective(st.backup, p))])
            && st1.status - {p.name} == st.status - {p.name}
            && st1.backup == st.backup
  {}

  // All entries but that of this name are as before.
  ghost predicate OthersAlike(st: State, st1: State, name: string) {
    forall n | n != name :: (n in st1.status <==> n in st.status) && (n in st.status ==> st1.status[n] == st.status[n])
  }

  /** A report in full. With an account it signals the profile's value if it is forced to or the value
      is new, and also where a rush-hour profile was not in the table, or a profile that is not external
      at all still was; it leaves in the table who is external, always or during rush hours, and during
      a backup who was there or was reported by force. */
  lemma ReportOutcome(st: State, p: Profile, force: bool)
    ensures var st1 := Report(st, p, force);
            var listed := p.name in st.status;
            var (was, now) := (listed && st.status[p.name], !st.backup && (p.externally || (p.duringRush && p.inRush)));
            var told := force || was != now
                        || (!st.backup && !p.externally && (if p.duringRush then !listed else listed));
            var stays := if st.backup then listed || force else p.externally || p.duringRush;
            if p.account == 0 then st1 == st
            else
              && st1.trace == st.trace + (if told then [Told(p.name, p.account, p.client, now)] else [])
              && (p.name in st1.status <==> stays) && (stays ==> st1.status[p.name] == now)
              && OthersAlike(st, st1, p.name) && st1.backup == st.backup
  {}

  /** A profile that is removed leaves the table, and listeners who believed it external are told. */
  lemma RemovalOutcome(st: State, p: Profile)
    ensures var st1 := RemoveStatus(st, p);
            if p.account == 0 then st1 == st
            else
              && p.name !in st1.status && OthersAlike(st, st1, p.name) && st1.backup == st.backup
              && st1.trace == st.trace + (if p.name in st.status && st.status[p.name]
                                          then [Told(p.name, p.account, p.client, false)]
                                          else [])
  {}

  lemma OtherFlags(st: State, p: Profile, force: bool, name: string)
    requires name != p.name || p.account == 0
    ensures Flag(Report(st, p, force), name) == Flag(st, name) && Report(st, p, force).backup == st.backup
  {}

  lemma SameBackup(st: State, p: Profile, force: bool)
    ensures Report(st, p, force).backup == st.backup
  {}

  lemma {:induction false} SuspendedFlags(st: State, names: seq<string>, loadable: Loadable, name: string)
    requires st.backup && forall n | n in loadable :: loadable[n].name == n
    ensures Flag(ReportEach(st, names, loadable), name) ==
            (Flag(st, name) && !(name in names && name in loadable && loadable[name].account != 0))
    decreases names
  {
    hide Report, Flag;
    if names != [] {
      var n := names[0];
      var st1 := if n in loadable then Report(st, loadable[n], false) else st;
      if n in loadable {
        SameBackup(st, loadable[n], false);
        if n == name && loadable[n].account != 0 {
          ReportIsEffective(st, loadable[n], false);
        } else {
          OtherFlags(st, loadable[n], false, name);
        }
      }
      SuspendedFlags(st1, names[1..], loadable, name);
      assert names == [n] + names[1..];
    }
  }

  /** The start of a backup turns off every tracked profile that can still be loaded with its account,
      and exactly those. */
  lemma BackupSuspends(st: State, order: seq<string>, loadable: Loadable, name: string)
    requires (forall n :: n in order <==> n in st.status) && forall n | n in loadable :: loadable[n].name == n
    ensures Flag(BackupStarts(st, order, loadable), name) ==
            (Flag(st, name) && !(name in loadable && loadable[name].account != 0))
  {
    hide ReportEach;
    SuspendedFlags(st.(backup := true), order, loadable, name);
  }

  ghost predicate DistinctNames(profiles: seq<Profile>) {
    forall i, j | 0 <= i < j < |profiles| :: profiles[i].name != profiles[j].name
  }

  lemma {:induction false} ReportAllSparesOthers(st: State, profiles: seq<Profile>, name: string)
    requires forall i | 0 <= i < |profiles| :: profiles[i].name != name
    ensures Flag(ReportAll(st, profiles), name) == Flag(st, name)
    decreases profiles
  {
    hide Report;
    if profiles != [] {
      OtherFlags(st, profiles[0], true, name);
      ReportAllSparesOthers(Report(st, profiles[0], true), profiles[1..], name);
    }
  }

  lemma {:induction false} ReportAllIsEffective(st: State, profiles: seq<Profile>, i: nat)
    requires DistinctNames(profiles) && i < |profiles| && profiles[i].account != 0
    ensures Flag(ReportAll(st, profiles), profiles[i].name) == Effective(st.backup, profiles[i])
    decreases profiles
  {
    hide Report;
    SameBackup(st, profiles[0], true);
    var st1 := Report(st, profiles[0], true);
    if i == 0 {
      ReportIsEffective(st, profiles[0], true);
      ReportAllSparesOthers(st1, profiles[1..], profiles[0].name);
    } else {
      ReportAllIsEffective(st1, profiles[1..], i - 1);
    }
  }

  /** The end of a backup restores the effective value of every profile with an account. */
  lemma BackupEndRestores(st: State, profiles: seq<Profile>, i: nat)
    requires DistinctNames(profiles) && i < |profiles| && profiles[i].account != 0
    ensures var p := profiles[i];
            Flag(BackupFinishes(st, profiles), p.name) == (p.externally || (p.duringRush && p.inRush))
  {
    hide ReportAll;
    ReportAllIsEffective(st.(backup := false), profiles, i);
  }

  // What is told when everybody with an account is reported by force.
  ghost function EverybodyTold(profiles: seq<Profile>): seq<Told> {
    if profiles == [] then []
    else
      var p := profiles[0];
      (if p.account != 0 then [Told(p.name, p.account, p.client, p.externally || (p.duringRush && p.inRush))] else [])
      + EverybodyTold(profiles[1..])
  }

  lemma ForcedTells(st: State, p: Profile)
    requires !st.backup
    ensures var value := p.externally || (p.duringRush && p.inRush);
            var first := if p.account != 0 then [Told(p.name, p.account, p.client, value)] else [];
            Report(st, p, true).trace == st.trace + first && !Report(st, p, true).backup
  {}

  lemma FirstTold(profiles: seq<Profile>)
    requires profiles != []
    ensures var p := profiles[0];
            EverybodyTold(profiles[..1]) ==
              if p.account == 0 then []
              else [Told(p.name, p.account, p.client, p.externally || (p.duringRush && p.inRush))]
    ensures EverybodyTold(profiles) == EverybodyTold(profiles[..1]) + EverybodyTold(profiles[1..])
  {
    assert profiles[..1][1..] == [];
  }

  lemma {:induction false} ReportAllTells(st: State, profiles: seq<Profile>)
    requires !st.backup
    ensures var st1 := ReportAll(st, profiles); st1.trace == st.trace + EverybodyTold(profiles) && !st1.backup
    decreases profiles
  {
    hide Report;
    if profiles == [] {
      assert st.trace + [] == st.trace;
    } else {
      ForcedTells(st, profiles[0]);
      var st1, rest := Report(st, profiles[0], true), EverybodyTold(profiles[1..]);
      ReportAllTells(st1, profiles[1..]);
      var first := EverybodyTold(profiles[..1]);
      FirstTold(profiles);
      hide EverybodyTold;
      Regrouped(st.trace, first, rest);
    }
  }

  /** And it tells listeners all of them, whether they changed or not. */
  lemma BackupEndTells(st: State, profiles: seq<Profile>)
    ensures var st1 := BackupFinishes(st, profiles);
            st1.trace == st.trace + EverybodyTold(profiles) && !st1.backup
  {
    ReportAllTells(st.(backup := false), profiles);
  }

  // What is told when a backup starts: no, for each profile that was external and can be loaded.
  ghost function SuspendedTold(st: State, names: seq<string>, loadable: Loadable): seq<Told>
    decreases names
  {
    if names == [] then []
    else
      var n := names[0];
      (if n in st.status && st.status[n] && n in loadable && loadable[n].account != 0
       then [Told(n, loadable[n].account, loadable[n].client, false)]
       else [])
      + SuspendedTold(st, names[1..], loadable)
  }

  lemma {:induction false} SameSuspended(st: State, st1: State, names: seq<string>, loadable: Loadable, name: string)
    requires OthersAlike(st, st1, name) && name !in names
    ensures SuspendedTold(st1, names, loadable) == SuspendedTold(st, names, loadable)
    decreases names
  {
    if names != [] {
      SameSuspended(st, st1, names[1..], loadable, name);
    }
  }

  lemma FirstSuspended(st: State, names: seq<string>, loadable: Loadable)
    requires names != []
    ensures var n := names[0];
            SuspendedTold(st, names[..1], loadable) ==
              if n in st.status && st.status[n] && n in loadable && loadable[n].account != 0
              then [Told(n, loadable[n].account, loadable[n].client, false)]
              else []
    ensures SuspendedTold(st, names, loadable)
         == SuspendedTold(st, names[..1], loadable) + SuspendedTold(st, names[1..], loadable)
  {
    assert names[..1][1..] == [];
  }

  lemma {:induction false} ReportEachTells(st: State, names: seq<string>, loadable: Loadable)
    requires st.backup && (forall n | n in loadable :: loadable[n].name == n)
    requires forall i, j | 0 <= i < j < |names| :: names[i] != names[j]
    ensures var st1 := ReportEach(st, names, loadable);
            st1.trace == st.trace + SuspendedTold(st, names, loadable) && st1.backup
    decreases names
  {
    hide Report, OthersAlike;
    if names == [] {
      assert st.trace + [] == st.trace;
    } else {
      var n := names[0];
      var st1 := if n in loadable then Report(st, loadable[n], false) else st;
      assert n !in names[1..] by {
        assert forall j | 0 <= j < |names| - 1 :: names[1..][j] == names[j + 1];
      }
      if n in loadable {
        ReportOutcome(st, loadable[n], false);
        if loadable[n].account != 0 {
          SameSuspended(st, st1, names[1..], loadable, n);
        }
      }
      ReportEachTells(st1, names[1..], loadable);
      var first, rest := SuspendedTold(st, names[..1], loadable), SuspendedTold(st, names[1..], loadable);
      FirstSuspended(st, names, loadable);
      assert st1.trace == st.trace + first;
      hide SuspendedTold;
      Regrouped(st.trace, first, rest);
    }
  }

  lemma {:induction false} SameTableSuspended(st: State, st1: State, names: seq<string>, loadable: Loadable)
    requires st1.status == st.status
    ensures SuspendedTold(st1, names, loadable) == SuspendedTold(st, names, loadable)
    decreases names
  {
    if names != [] {
      SameTableSuspended(st, st1, names[1..], loadable);
    }
  }

  /** It tells listeners of these and of nobody else. */
  lemma BackupStartTells(st: State, order: seq<string>, loadable: Loadable)
    requires forall i, j | 0 <= i < j < |order| :: order[i] != order[j]
    requires forall n | n in loadable :: loadable[n].name == n
    ensures var st1 := BackupStarts(st, order, loadable);
            st1.trace == st.trace + SuspendedTold(st, order, loadable) && st1.backup
  {
    var on := st.(backup := true);
    ReportEachTells(on, order, loadable);
    SameTableSuspended(st, on, order, loadable);
  }

  // What the listeners of an account and a client heard last, and which profile that was about.
  function Heard(trace: seq<Told>, who: (int, string)): bool {
    if trace == [] then false
    else
      var t := trace[|trace| - 1];
      if (t.account, t.client) == who then t.value else Heard(trace[..|trace| - 1], who)
  }

  function Speaker(trace: seq<Told>, who: (int, string)): Option<string> {
    if trace == [] then None
    else
      var t := trace[|trace| - 1];
      if (t.account, t.client) == who then Some(t.name) else Speaker(trace[..|trace| - 1], who)
  }

  // The account and the client of a profile do not change.
  ghost predicate IsOf(p: Profile, of: string -> (int, string)) {
    of(p.name) == (p.account, p.client)
  }

  ghost predicate AllOf(e: Event, of: string -> (int, string)) {
    match e
    case Reported(p, _) => IsOf(p, of)
    case Removed(p) => IsOf(p, of)
    case BackupStarted(_, loadable) => forall n | n in loadable :: loadable[n].name == n && IsOf(loadable[n], of)
    case BackupFinished(profiles) => forall i | 0 <= i < |profiles| :: IsOf(profiles[i], of)
  }

  ghost predicate RunOf(run: seq<Event>, of: string -> (int, string)) {
    forall i | 0 <= i < |run| :: AllOf(run[i], of)
  }

  ghost predicate Identified(trace: seq<Told>, of: string -> (int, string)) {
    forall i | 0 <= i < |trace| :: of(trace[i].name) == (trace[i].account, trace[i].client)
  }

  lemma ReportIdentified(st: State, p: Profile, force: bool, of: string -> (int, string))
    requires Identified(st.trace, of) && IsOf(p, of)
    ensures Identified(Report(st, p, force).trace, of)
  {}

  lemma {:induction false} ReportEachIdentified(st: State, names: seq<string>, loadable: Loadable,
                                                of: string -> (int, string))
    requires Identified(st.trace, of) && forall n | n in loadable :: IsOf(loadable[n], of)
    ensures Identified(ReportEach(st, names, loadable).trace, of)
    decreases names
  {
    hide Report, Identified;
    if names != [] {
      if names[0] in loadable {
        ReportIdentified(st, loadable[names[0]], false, of);
      }
      ReportEachIdentified(if names[0] in loadable then Report(st, loadable[names[0]], false) else st,
                           names[1..], loadable, of);
    }
  }

  lemma {:induction false} ReportAllIdentified(st: State, profiles: seq<Profile>, of: string -> (int, string))
    requires Identified(st.trace, of) && forall i | 0 <= i < |profiles| :: IsOf(profiles[i], of)
    ensures Identified(ReportAll(st, profiles).trace, of)
    decreases profiles
  {
    hide Report, Identified;
    if profiles != [] {
      ReportIdentified(st, profiles[0], true, of);
      ReportAllIdentified(Report(st, profiles[0], true), profiles[1..], of);
    }
  }

  lemma {:induction false} RunIdentified(run: seq<Event>, of: string -> (int, string))
    requires RunOf(run, of)
    ensures Identified(After(run).trace, of)
  {
    hide Report, ReportEach, ReportAll;
    if run != [] {
      var n := |run| - 1;
      var before := After(run[..n]);
      RunIdentified(run[..n], of);
      assert AllOf(run[n], of);
      match run[n] {
        case Reported(p, force) => ReportIdentified(before, p, force, of);
        case Removed(p) =>
        case BackupStarted(order, loadable) => ReportEachIdentified(before.(backup := true), order, loadable, of);
        case BackupFinished(profiles) => ReportAllIdentified(before.(backup := false), profiles, of);
      }
    }
  }

  // The last one to speak for a pair said last of itself what was heard last.
  lemma {:induction false} HeardFromSpeaker(trace: seq<Told>, of: string -> (int, string), name: string)
    requires Identified(trace, of)
    ensures var speaker := Speaker(trace, of(name));
            if speaker.Some?
            then of(speaker.value) == of(name) && Heard(trace, of(name)) == LastTold(trace, speaker.value)
            else !Heard(trace, of(name)) && !LastTold(trace, name)
  {
    if trace != [] {
      HeardFromSpeaker(trace[..|trace| - 1], of, name);
    }
  }

  /** With fixed accounts and clients, what the listeners of a profile's account and client heard last
      is its flag exactly if the profile last reported to them, if any, has the same flag. */
  lemma ListenersAgreeIff(run: seq<Event>, of: string -> (int, string), name: string)
    requires RunOf(run, of)
    ensures var st := After(run);
            var speaker := Speaker(st.trace, of(name));
            Heard(st.trace, of(name)) == Flag(st, name)
            <==> (speaker.Some? ==> Flag(st, speaker.value) == Flag(st, name))
  {
    hide After, Heard, Speaker, LastTold, Flag, RunOf;
    RunIdentified(run, of);
    var st := After(run);
    HeardFromSpeaker(st.trace, of, name);
    FlagIsLastTold(run, name);
    if Speaker(st.trace, of(name)).Some? {
      FlagIsLastTold(run, Speaker(st.trace, of(name)).value);
    }
  }

  ghost predicate Agrees(run: seq<Event>, of: string -> (int, string), name: string) {
    RunOf(run, of) ==> Heard(After(run).trace, of(name)) == Flag(After(run), name)
  }

  // Profiles with an account differ in the account or in the client.
  ghost predicate ToldApart(of: string -> (int, string)) {
    forall a, b | of(a).0 != 0 && of(a) == of(b) :: a == b
  }

  // A first report of `a` is heard by the listeners of `b` too.
  lemma ReportTellsBoth(of: string -> (int, string), a: string, b: string)
    requires a != b && of(a).0 != 0 && of(a) == of(b)
    ensures var run := [Reported(Profile(a, of(a).0, of(a).1, true, false, false), false)];
            RunOf(run, of) && Heard(After(run).trace, of(b)) && !Flag(After(run), b)
  {
    var p := Profile(a, of(a).0, of(a).1, true, false, false);
    var run := [Reported(p, false)];
    assert run[..0] == [];
    assert After(run) == Report(NOTHING_TOLD, p, false);
    assert After(run).trace == [Signal(p, true)];
  }

  /** Listeners always know every flag exactly if no two profiles share account and client. */
  lemma ListenersAlwaysAgreeIff(of: string -> (int, string))
    ensures (forall run, name | of(name).0 != 0 :: Agrees(run, of, name)) <==> ToldApart(of)
  {
    hide After, Heard, Speaker, LastTold, Flag;
    if ToldApart(of) {
      forall run, name | of(name).0 != 0 && RunOf(run, of) ensures Agrees(run, of, name) {
        ListenersAgreeIff(run, of, name);
        RunIdentified(run, of);
        HeardFromSpeaker(After(run).trace, of, name);
      }
    } else {
      var a, b :| of(a).0 != 0 && of(a) == of(b) && a != b;
      var run := [Reported(Profile(a, of(a).0, of(a).1, true, false, false), false)];
      ReportTellsBoth(of, a, b);
      assert !Agrees(run, of, b);
    }
  }

  /** Two profiles of account 7 and client "cal": the first is synced externally, the second is not,
      and a forced report on the second leaves listeners with no for both. */
  lemma SharedAccountMisleads()
    ensures var first := Profile("work", 7, "cal", true, false, false);
            var second := Profile("home", 7, "cal", false, false, false);
            var st := After([Reported(first, true), Reported(second, true)]);
            Flag(st, "work") && !Heard(st.trace, (7, "cal"))
  {
    var first := Profile("work", 7, "cal", true, false, false);
    var second := Profile("home", 7, "cal", false, false, false);
    var run := [Reported(first, true), Reported(second, true)];
    assert run[..1] == [Reported(first, true)] && run[..1][..0] == [];
    assert After(run[..1]) == Report(NOTHING_TOLD, first, true);
    assert After(run).trace == [Signal(first, true), Signal(second, false)];
  }
}

/** The synchronizer's table of external statuses, changed in place as above. */
module ExternalSyncObjects {
  import opened ExternalSyncs

  class ExternalSync {
    var backup: bool
    var externalSyncProfileStatus: map<string, bool>
    ghost var trace: seq<Told>

    ghost function View(): State reads this {
      State(backup, externalSyncProfileStatus, trace)
    }

    constructor ()
      ensures View() == NOTHING_TOLD
    {
      backup, externalSyncProfileStatus, trace := false, map[], [];
    }

    ghost method SyncedExternallyStatus(p: Profile, value: bool)
      modifies this`trace
      ensures trace == old(trace) + [Signal(p, value)]
    {
      trace := trace + [Signal(p, value)];
    }

    method ReportExternalSyncStatus(p: Profile, force: bool)
      modifies this
      ensures View() == old(Report(View(), p, force))
    {
      if p.account == 0 {
        return;
      }
      var stored := p.name in externalSyncProfileStatus;
      var value := stored && externalSyncProfileStatus[p.name];
      if backup {
        if value || force {
          externalSyncProfileStatus := externalSyncProfileStatus[p.name := false];
          SyncedExternallyStatus(p, false);
        }
      } else if p.externally {
        if !value {
          externalSyncProfileStatus := externalSyncProfileStatus[p.name := true];
          SyncedExternallyStatus(p, true);
        } else if force {
          SyncedExternallyStatus(p, true);
        }
      } else if p.duringRush {
        var isSyncExternally := p.inRush;
        if stored {
          if value != isSyncExternally {
            externalSyncProfileStatus := externalSyncProfileStatus[p.name := isSyncExternally];
            SyncedExternallyStatus(p, isSyncExternally);
          } else if force {
            SyncedExternallyStatus(p, value);
          }
        } else {
          externalSyncProfileStatus := externalSyncProfileStatus[p.name := isSyncExternally];
          SyncedExternallyStatus(p, isSyncExternally);
        }
      } else if stored {
        externalSyncProfileStatus := externalSyncProfileStatus - {p.name};
        SyncedExternallyStatus(p, false);
      } else if force {
        SyncedExternallyStatus(p, false);
      }
    }

    method RemoveExternalSyncStatus(p: Profile)
      modifies this
      ensures View() == old(RemoveStatus(View(), p))
      ensures p.account != 0 ==> p.name !in externalSyncProfileStatus
      ensures p.account != 0 && p.name in old(externalSyncProfileStatus) && old(externalSyncProfileStatus)[p.name] ==>
                trace == old(trace) + [Told(p.name, p.account, p.client, false)]
    {
      if p.account != 0 && p.name in externalSyncProfileStatus {
        if externalSyncProfileStatus[p.name] {
          SyncedExternallyStatus(p, false);
        }
        externalSyncProfileStatus := externalSyncProfileStatus - {p.name};
      }
    }

    method BackupRestoreStarts(order: seq<string>, loadable: Loadable)
      modifies this
      ensures View() == old(BackupStarts(View(), order, loadable))
    {
      hide Report;
      backup := true;
      ghost var st := View();
      for i := 0 to |order|
        invariant ReportEach(View(), order[i..], loadable) == ReportEach(st, order, loadable)
      {
        assert order[i..][0] == order[i] && order[i..][1..] == order[i + 1..];
        if order[i] in loadable {
          ReportExternalSyncStatus(loadable[order[i]], false);
        }
      }
    }

    method BackupRestoreFinished(profiles: seq<Profile>)
      modifies this
      ensures View() == old(BackupFinishes(View(), profiles))
    {
      hide Report;
      backup := false;
      ghost var st := View();
      for i := 0 to |profiles|
        invariant ReportAll(View(), profiles[i..]) == ReportAll(st, profiles)
      {
        assert profiles[i..][0] == profiles[i] && profiles[i..][1..] == profiles[i + 1..];
        ReportExternalSyncStatus(profiles[i], true);
      }
    }
  }
}
