/** The settings file with its timestamped backup and added files, over enable and uninstall. */
module SettingsStore {
  import opened Wrappers
  import opened Json
  import opened SettingsModel
  import opened SettingsRoundTrip
  import opened SettingsLaws
  import opened SettingsTwoPaths

  /** Timestamps stand for the fixed-width names of the hidden files, whose order is theirs. */
  type Timestamp = nat

  /** file is None when settings.json does not exist. */
  datatype Store = Store(file: Option<Settings>, backups: map<Timestamp, Settings>, added: map<Timestamp, Settings>)

  function Read(st: Store): Settings {
    if st.file.Some? then st.file.value else EMPTY
  }

  predicate IsNewest(t: Timestamp, files: map<Timestamp, Settings>) {
    t in files && forall u | u in files :: u <= t
  }

  lemma {:induction false} NewestExists(files: map<Timestamp, Settings>)
    requires files != map[]
    ensures exists t :: IsNewest(t, files)
    decreases |files|
  {
    var t :| t in files;
    var rest := files - {t};
    assert forall u | u in files :: u == t || u in rest;
    if rest == map[] {
      assert IsNewest(t, files);
    } else {
      assert rest.Keys == files.Keys - {t};
      NewestExists(rest);
      var r :| IsNewest(r, rest);
      assert IsNewest(if t < r then r else t, files);
    }
  }

  function NewestTime(files: map<Timestamp, Settings>): (t: Timestamp)
    requires files != map[]
    ensures IsNewest(t, files)
  {
    NewestExists(files);
    var t :| IsNewest(t, files);
    t
  }

  /** The first of find_backup_files or find_added_files, or the empty dictionary. */
  function Newest(files: map<Timestamp, Settings>): Settings {
    if files == map[] then EMPTY else files[NewestTime(files)]
  }

  predicate NotBefore(now: Timestamp, st: Store) {
    (forall t | t in st.backups :: t <= now) && (forall t | t in st.added :: t <= now)
  }

  lemma NewestAfterWrite(files: map<Timestamp, Settings>, now: Timestamp, s: Settings)
    requires forall t | t in files :: t <= now
    ensures Newest(files[now := s]) == s
  {
    assert now in files[now := s];
  }

  // ----- enable

  /** The settings half of init, once nothing conflicts: back up, merge, write, save what was added. */
  function Enabled(st: Store, p: Preset, o: MergeOptions, now: Timestamp): Store {
    Store(
      Some(Merged(Read(st), p, o)),
      if st.file.Some? then st.backups[now := st.file.value] else st.backups,
      st.added[now := AddedStructure(MergeEntries(Read(st), p, o))])
  }

  // ----- uninstall

  /** An added file that is the empty dictionary counts as none. */
  predicate UsesAddedFile(st: Store) {
    Newest(st.added) != EMPTY
  }

  /** The shapes without which uninstall stops with a Python type error after the files are gone. */
  predicate UninstallFits(st: Store, entries: seq<Entry>) {
    if UsesAddedFile(st) then
      && AddedOk(Newest(st.added)) && SectionsAreObjects(Read(st)) && SectionsAreObjects(Newest(st.backups))
    else EntriesOk(entries) && UnmergeFits(Read(st), entries)
  }

  function SettingsLeft(st: Store, entries: seq<Entry>): Option<Settings>
    requires UninstallFits(st, entries)
  {
    if UsesAddedFile(st) then
      GuardsDoNotReachCleanup(Read(st), Newest(st.backups), Newest(st.added));
      var result := Cleaned(SmartUnmerged(Read(st), Newest(st.backups), Newest(st.added)));
      var backup := Cleaned(Newest(st.backups));
      if SettingsEqual(result, backup) then
        if st.backups != map[] && backup != EMPTY then Some(backup) else None
      else Some(result)
    else Some(Unmerged(Read(st), entries))
  }

  /** Backup files are kept for history; added files go. */
  function Uninstalled(st: Store, entries: seq<Entry>): Store
    requires UninstallFits(st, entries)
  {
    Store(SettingsLeft(st, entries), st.backups, map[])
  }

  predicate SettingsEqual(a: Settings, b: Settings)
    requires SectionsAreObjects(a) && SectionsAreObjects(b)
  {
    Cleaned(a) == Cleaned(b)
  }

  lemma CleanPartTwice(s: Settings, n: SectionName)
    requires SectionsAreObjects(s)
    ensures CleanPart(Cleaned(s), n) == CleanPart(s, n)
  {
    var clean := CleanSection(Section(s, n));
    assert CleanSection(clean) == clean;
    hide CleanSection;
    assert Part(Cleaned(s), n) == CleanPart(s, n);
  }

  lemma CleanedTwice(s: Settings)
    requires SectionsAreObjects(s)
    ensures SectionsAreObjects(Cleaned(s)) && Cleaned(Cleaned(s)) == Cleaned(s)
  {
    CleanPartTwice(s, Hooks);
    CleanPartTwice(s, Permissions);
    CleanPartTwice(s, Env);
    hide CleanSection, Section;
  }

  // ----- one enable, then uninstall

  lemma NothingRecorded(s: Settings, p: Preset, o: MergeOptions)
    requires MergeEntries(s, p, o) == []
    ensures FallbackCanRestore(s, p, o) && forall b :: BackupServes(s, b, p, o)
  {
    EntriesByPath(s, p, o);
    hide MergeEntries, MergedLists, Additions, PyEq, BackupServes;
    forall t | t in MergedLists(p, o, Hooks)
      ensures !AddsEmptyHook(Hooks, Section(s, Hooks), MergedLists(p, o, Hooks), t)
    {
      assert ValuesAt([], InSection(Hooks, t)) == [];
    }
    forall k ensures k !in p.env {
      assert !Tracks([], InSection(Env, k));
      assert k in EnvValues(p) <==> k in p.env;
    }
    assert !Tracks([], TopLevel(STATUS_LINE));
    NewStatusLineMeaning(s, p, o);
    forall b ensures BackupServes(s, b, p, o) { ServesNothing(s, b, p, o); }
  }

  lemma ServesNothing(s: Settings, b: Settings, p: Preset, o: MergeOptions)
    requires !SetsStatusLine(s, p, o) && forall k :: k !in p.env
    ensures BackupServes(s, b, p, o)
  {}

  /** The backup that uninstall will read after one enable: the settings themselves, or, when there was no
      settings file, whatever an earlier installation left behind. */
  function BackupRead(st: Store): Settings {
    if st.file.Some? then st.file.value else Newest(st.backups)
  }

  lemma EnabledParts(st: Store, p: Preset, o: MergeOptions, now: Timestamp)
    requires NotBefore(now, st)
    ensures var e := Enabled(st, p, o, now);
      && Read(e) == Merged(Read(st), p, o)
      && Newest(e.added) == AddedStructure(MergeEntries(Read(st), p, o))
      && Newest(e.backups) == BackupRead(st)
      && (st.file.Some? ==> e.backups != map[])
      && (st.file.None? ==> e.backups == st.backups)
  {
    hide MergeEntries, Merged, AddedStructure;
    NewestAfterWrite(st.added, now, AddedStructure(MergeEntries(Read(st), p, o)));
    if st.file.Some? {
      NewestAfterWrite(st.backups, now, st.file.value);
      assert now in st.backups[now := st.file.value];
    }
  }

  /** Whatever the merge recorded something for is a list afterwards, and can be looked through. */
  lemma ExtendedItemsFit(n: SectionName, section: Dict, lists: map<string, seq<Json>>, t: string)
    requires t in lists && ListFits(section, n, t, lists[t]) && ValuesFit(n, lists[t]) && n != Env
    requires RecordedIn(section, lists, t) != []
    ensures var e := Extended(section, lists);
      t in e && e[t].Arr? && (n == Permissions ==> forall x | x in ListAt(e, t) :: Hashable(x))
  {
    hide ListAt, ListFits, Extended, Additions;
    ExtendedAt(section, lists, t);
    AppendedToList(n, section, t, lists[t]);
    ListItemsFit(n, section, t, lists[t]);
    AdditionsAreNew(ListAt(section, t), lists[t]);
    ListAtList(Extended(section, lists), t);
  }

  lemma TrackedIsRecorded(s: Settings, p: Preset, o: MergeOptions, n: SectionName, t: string)
    requires n != Env
    ensures Tracks(MergeEntries(s, p, o), InSection(n, t)) <==> RecordedIn(Section(s, n), MergedLists(p, o, n), t) != []
  {
    EntriesByPath(s, p, o);
    ValuesAtTracks(MergeEntries(s, p, o), InSection(n, t));
    hide MergeEntries, MergedLists, Tracks, ValuesAt, RecordedIn;
  }

  lemma MergeListsFit(s: Settings, p: Preset, o: MergeOptions, n: SectionName)
    requires PresetOk(p) && MergeFits(s, p, o) && n != Env
    ensures forall t | t in MergedLists(p, o, n) ::
      ListFits(Section(s, n), n, t, MergedLists(p, o, n)[t]) && ValuesFit(n, MergedLists(p, o, n)[t])
  {
    ListsValuesFit(p, o, n);
    hide MergedLists, ListFits, ValuesFit, PresetOk;
  }

  lemma TrackedListsFitMerged(s: Settings, p: Preset, o: MergeOptions, n: SectionName)
    requires PresetOk(p) && MergeFits(s, p, o) && n != Env
    ensures TrackedListsFit(n, Extended(Section(s, n), MergedLists(p, o, n)), MergeEntries(s, p, o))
  {
    hide MergeEntries, MergedLists, Additions, ListFits, ValuesFit, Extended, Hashable, Tracks, MergeFits, PresetOk,
      ListAt, Section, RecordedIn;
    MergeListsFit(s, p, o, n);
    var es, section, lists := MergeEntries(s, p, o), Section(s, n), MergedLists(p, o, n);
    var e := Extended(section, lists);
    forall t | t in e && Tracks(es, InSection(n, t))
      ensures Elements(e[t]).Some? && (n == Permissions ==> forall x | x in ListAt(e, t) :: Hashable(x))
    {
      TrackedIsRecorded(s, p, o, n, t);
      assert t in lists by { NothingElseRecorded(section, lists, t); }
      ExtendedItemsFit(n, section, lists, t);
    }
  }

  lemma NothingElseRecorded(section: Dict, lists: map<string, seq<Json>>, t: string)
    ensures RecordedIn(section, lists, t) != [] ==> t in lists
  {
  }

  lemma UnmergeFitsMerged(s: Settings, p: Preset, o: MergeOptions)
    requires PresetOk(p) && SectionsAreObjects(s) && MergeFits(s, p, o)
    ensures UnmergeFits(Merged(s, p, o), MergeEntries(s, p, o))
  {
    hide MergeEntries, Merged, MergedLists, Extended, TrackedListsFit, MergeFits, PresetOk, UnmergeFits;
    MergedParts(s, p, o);
    TrackedListsFitMerged(s, p, o, Hooks);
    TrackedListsFitMerged(s, p, o, Permissions);
    ListsUnmergeFit(Merged(s, p, o), MergeEntries(s, p, o));
  }

  /** SettingsLeft by the added file, after the equality test: always the cleaned result, or no file. */
  lemma LeftByAddedFile(st: Store, entries: seq<Entry>)
    requires UninstallFits(st, entries) && UsesAddedFile(st)
    ensures var smart, backup := SmartUnmerged(Read(st), Newest(st.backups), Newest(st.added)), Newest(st.backups);
      && SectionsAreObjects(smart)
      && SectionsAreObjects(Read(Uninstalled(st, entries)))
      && Read(Uninstalled(st, entries)) == Cleaned(smart)
      && SettingsLeft(st, entries)
      == if Cleaned(smart) == Cleaned(backup) && Cleaned(smart) == EMPTY then None else Some(Cleaned(smart))
  {
    hide SmartUnmerged, CleanPart, UnmergeFits, AddedOk, EntriesOk;
    var smart, backup := SmartUnmerged(Read(st), Newest(st.backups), Newest(st.added)), Newest(st.backups);
    GuardsDoNotReachCleanup(Read(st), backup, Newest(st.added));
    CleanedTwice(smart);
    CleanedTwice(backup);
    assert Cleaned(EMPTY) == EMPTY by { EmptyIsClean(); }
  }

  lemma EmptyIsClean()
    ensures Cleaned(EMPTY) == EMPTY
  {
    assert CleanSection(map[]) == map[];
  }

  /** Round trip of the settings file. After one enable (the clock not behind any leftover file) uninstall
      succeeds and gives back the old settings, up to empty sections, if and only if the backup it reads
      serves; the file then holds the cleaned settings, or is gone when there is nothing to hold. */
  lemma EnableThenUninstall(st: Store, p: Preset, o: MergeOptions, now: Timestamp)
    requires PresetOk(p) && NotBefore(now, st)
    requires SectionsAreObjects(Read(st)) && MergeFits(Read(st), p, o) && SectionsAreObjects(BackupRead(st))
    ensures var s, es, e := Read(st), MergeEntries(Read(st), p, o), Enabled(st, p, o, now);
      UninstallFits(e, es) &&
      var left := Uninstalled(e, es);
      && SectionsAreObjects(Read(left))
      && (Cleaned(Read(left)) == Cleaned(s) <==> BackupServes(s, BackupRead(st), p, o))
      && (es != [] && BackupServes(s, BackupRead(st), p, o) ==>
            left.file == if Cleaned(s) == EMPTY && Cleaned(BackupRead(st)) == EMPTY then None else Some(Cleaned(s)))
  {
    hide MergeEntries, Merged, AddedStructure, SmartUnmerged, Unmerged, BackupServes, MergeFits, UnmergeFits,
      FallbackCanRestore,
         AddedOk, EntriesOk, Newest, NotBefore, PresetOk, CleanPart, BackupRead;
    var s, es, e := Read(st), MergeEntries(Read(st), p, o), Enabled(st, p, o, now);
    var backup := BackupRead(st);
    EnabledParts(st, p, o, now);
    MergeEntriesOk(s, p, o);
    AddedShape(es);
    AddedIsOk(es);
    if es == [] {
      UnmergeFitsMerged(s, p, o);
      EnableThenFallback(s, p, o);
      NothingRecorded(s, p, o);
    } else {
      MergedParts(s, p, o);
      EnableThenUnmerge(s, backup, p, o);
      LeftByAddedFile(e, es);
      CleanedTwice(SmartUnmerged(Merged(s, p, o), backup, AddedStructure(es)));
      CleanedTwice(s);
    }
  }

  // ----- enabling again before uninstalling

  predicate Renewed(e: Entry, renewals: seq<Entry>) {
    exists f | f in renewals :: f.path == e.path && f.stableId == e.stableId
  }

  function NotRenewed(existing: seq<Entry>, renewals: seq<Entry>): seq<Entry> {
    if existing == [] then []
    else (if Renewed(existing[0], renewals) then [] else [existing[0]]) + NotRenewed(existing[1..], renewals)
  }

  /** The settings entries the manifest holds after a run: the new ones, then the old ones not renewed. */
  function NextEntries(renewals: seq<Entry>, existing: seq<Entry>): seq<Entry> {
    renewals + NotRenewed(existing, renewals)
  }

  lemma {:induction false} NothingRenewed(existing: seq<Entry>)
    ensures NextEntries([], existing) == existing
  {
    if existing != [] {
      NothingRenewed(existing[1..]);
    }
  }

  predicate Chronological(now: Timestamp, times: seq<Timestamp>)
    decreases times
  {
    times != [] ==> now <= times[0] && Chronological(times[0], times[1..])
  }

  /** The settings half of one init after another, with the entries the manifest accumulates. */
  function EnabledRepeatedly(st: Store, entries: seq<Entry>, p: Preset, o: MergeOptions,
      times: seq<Timestamp>): (Store, seq<Entry>)
    decreases times
  {
    if times == [] then (st, entries) else
    EnabledRepeatedly(Enabled(st, p, o, times[0]), NextEntries(MergeEntries(Read(st), p, o), entries), p, o, times[1..])
  }

  /** After any number of repeats the file is unchanged, the newest backup is that same file, and the newest
      added file knows only the env values; without env values the tracked entries stay complete. */
  lemma {:induction false} RepeatsSettle(st: Store, s: Settings, entries: seq<Entry>, p: Preset, o: MergeOptions,
      times: seq<Timestamp>)
    requires st.file == Some(Merged(s, p, o)) && times != []
    requires NotBefore(times[0], st) && Chronological(times[0], times[1..])
    ensures var (e, es) := EnabledRepeatedly(st, entries, p, o, times);
      && e.file == st.file
      && e.backups != map[] && Newest(e.backups) == Merged(s, p, o)
      && Newest(e.added) == AddedStructure(RepeatEntries(p))
      && (p.env == map[] ==> es == entries)
    decreases times
  {
    hide Merged, MergeEntries, AddedStructure, Newest, EnvNames, EnvValues, MergeConflicts;
    MergeAgain(s, p, o);
    var e1 := Enabled(st, p, o, times[0]);
    EnabledParts(st, p, o, times[0]);
    if p.env == map[] {
      assert RepeatEntries(p) == [];
      NothingRenewed(entries);
    }
    if times[1..] != [] {
      assert NotBefore(times[1], e1);
      RepeatsSettle(e1, s, NextEntries(MergeEntries(Read(st), p, o), entries), p, o, times[1..]);
    }
  }

  /** What a repeat records. */
  function RepeatEntries(p: Preset): seq<Entry> {
    EnvEntries(EnvNames(p), EnvValues(p))
  }

  lemma NoListsRecordedAgain(s: Settings, p: Preset, o: MergeOptions)
    ensures var m := Merged(s, p, o);
      && (forall t :: RecordedIn(Section(m, Hooks), MergedLists(p, o, Hooks), t) == [])
      && (forall t :: RecordedIn(Section(m, Permissions), MergedLists(p, o, Permissions), t) == [])
  {
    var h, l := MergedLists(p, o, Hooks), MergedLists(p, o, Permissions);
    MergedByPart(s, p, o);
    hide Merged, MergedLists, ExtendSection, RecordedIn;
    ExtendSettled(Merged(s, p, o), s, Hooks, h);
    ExtendSettled(Merged(s, p, o), ExtendSection(s, Hooks, h), Permissions, l);
  }

  lemma NoneRecorded(section: Dict, lists: map<string, seq<Json>>, added: Dict)
    requires forall t :: RecordedIn(section, lists, t) == []
    requires forall t :: RecordsIn(section, lists, added, t)
    ensures added == map[]
  {
    hide RecordedIn;
    forall t ensures t !in added { assert RecordsIn(section, lists, added, t); }
  }

  /** The added file of a repeat names env values and nothing else. */
  lemma AddedByRepeat(s: Settings, p: Preset, o: MergeOptions)
    requires PresetOk(p)
    ensures var added := AddedStructure(RepeatEntries(p));
      && AddedOk(added)
      && Section(added, Hooks) == map[] && Section(added, Permissions) == map[]
      && Section(added, Env) == EnvValues(p)
      && added.others == map[]
  {
    hide Merged, MergedLists, AddedStructure, MergeEntries, EnvEntries, EnvNames, EnvValues, RecordedIn, RecordsIn,
      NewStatusLine,
         AddedOk, Section, MergeConflicts;
    var m, added := Merged(s, p, o), AddedStructure(RepeatEntries(p));
    MergeAgain(s, p, o);
    AddedParts(m, p, o);
    StatusLineSettled(s, p, o);
    NoListsRecordedAgain(s, p, o);
    NoneRecorded(Section(m, Hooks), MergedLists(p, o, Hooks), Section(added, Hooks));
    NoneRecorded(Section(m, Permissions), MergedLists(p, o, Permissions), Section(added, Permissions));
    assert forall k :: k !in added.others;
  }

  lemma NothingAddedToLists(n: SectionName, section: Dict)
    ensures UnmergedLists(n, section, map[]) == section
  {}

  /** With only env values in the added file and the merged settings as backup, nothing is removed. */
  lemma EnvOnlyUnmergeKeepsAll(s: Settings, p: Preset, o: MergeOptions)
    requires PresetOk(p) && SectionsAreObjects(s)
    ensures var m, added := Merged(s, p, o), AddedStructure(RepeatEntries(p));
      && SectionsAreObjects(m) && AddedOk(added)
      && var r := SmartUnmerged(m, m, added);
         SectionsAreObjects(r) && Cleaned(r) == Cleaned(m)
  {
    hide Merged, AddedStructure, RepeatEntries, EnvValues, AddedOk, UnmergedLists, UnmergedEnv, CleanSection, Extended;
    var m, added := Merged(s, p, o), AddedStructure(RepeatEntries(p));
    MergedParts(s, p, o);
    AddedByRepeat(s, p, o);
    SmartUnmergedParts(m, m, added);
    CleanedEqual(SmartUnmerged(m, m, added), m);
    NothingAddedToLists(Hooks, Section(m, Hooks));
    NothingAddedToLists(Permissions, Section(m, Permissions));
    EnvValuesAreStrings(p);
    EnvOntoItself(Section(s, Env), EnvValues(p));
    assert UnmergedOthers(m.others, m.others, map[]) == m.others;
  }

  lemma EnvValuesAreStrings(p: Preset)
    ensures forall k | k in EnvValues(p) :: EnvValues(p)[k].Str?
  {}

  lemma EnvOntoItself(section: Dict, env: Dict)
    requires forall k | k in env :: env[k].Str?
    ensures UnmergedEnv(section + env, section + env, env) == section + env
  {
    hide PyEq;
    forall k | k in env { PyEqReflexive(env[k]); }
    MapsEqual(UnmergedEnv(section + env, section + env, env), section + env);
  }

  lemma EntriesOfRepeat(s: Settings, p: Preset, o: MergeOptions)
    requires PresetOk(p)
    ensures var es := RepeatEntries(p);
      EntriesOk(es) && (es == [] <==> p.env == map[]) && (AddedStructure(es) == EMPTY <==> es == [])
  {
    hide Merged, MergeEntries, EnvNames, AddedStructure;
    MergeAgain(s, p, o);
    MergeEntriesOk(Merged(s, p, o), p, o);
    AddedShape(RepeatEntries(p));
  }

  /** Uninstall reads only the newest added file. After one enable and any positive number of repeats it
      gives back the old settings if and only if: with env values in the template, the merge had changed
      nothing beyond empty sections; without them, the fallback can restore. */
  lemma RepeatThenUninstall(st: Store, p: Preset, o: MergeOptions, now: Timestamp, times: seq<Timestamp>)
    requires PresetOk(p) && NotBefore(now, st) && times != [] && Chronological(now, times)
    requires SectionsAreObjects(Read(st)) && MergeFits(Read(st), p, o)
    ensures var s := Read(st);
      var (e, es) := EnabledRepeatedly(Enabled(st, p, o, now), MergeEntries(s, p, o), p, o, times);
      && SectionsAreObjects(Merged(s, p, o))
      && UninstallFits(e, es)
      && var left := Uninstalled(e, es);
         && SectionsAreObjects(Read(left))
         && (Cleaned(Read(left)) == Cleaned(s) <==>
               if p.env == map[] then FallbackCanRestore(s, p, o) else Cleaned(Merged(s, p, o)) == Cleaned(s))
  {
    hide MergeEntries, Merged, AddedStructure, SmartUnmerged, Unmerged, MergeFits, UnmergeFits, FallbackCanRestore,
         AddedOk, EntriesOk, EntryOk, Newest, PresetOk, CleanPart, RepeatEntries, BackupRead, SectionsAreObjects,
         EnabledRepeatedly;
    var s := Read(st);
    var first := Enabled(st, p, o, now);
    var (e, es) := EnabledRepeatedly(first, MergeEntries(s, p, o), p, o, times);
    EnabledParts(st, p, o, now);
    assert NotBefore(times[0], first);
    RepeatsSettle(first, s, MergeEntries(s, p, o), p, o, times);
    EntriesOfRepeat(s, p, o);
    if p.env == map[] {
      MergeEntriesOk(s, p, o);
      UnmergeFitsMerged(s, p, o);
      EnableThenFallback(s, p, o);
    } else {
      EnvOnlyUnmergeKeepsAll(s, p, o);
      LeftByAddedFile(e, es);
      CleanedTwice(Merged(s, p, o));
    }
  }
}
