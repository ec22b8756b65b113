/** The hook that is written into Claude's settings.json, and taken out again
    (internal/hook/settings.go). A file is what parsing it gives; the JSON text itself is not part of
    this model. */
module HookSettings {
  import opened Json

  datatype Config = Config(url: string, token: string, timeout: int, extraEnvVars: seq<string>)

  // ----- Settings -----

  /** A failed lookup or a failed type assertion both leave nil. */
  function Field(o: Object, key: string): Value {
    if key in o then o[key] else Null
  }

  predicate IsMark(h: Value, marker: string) {
    h.Obj? && Field(h.fields, "_mobilecoding") == Str(marker)
  }

  /** An entry of an event's list that holds a hook with our mark. */
  predicate Marked(item: Value, marker: string) {
    && item.Obj? && Field(item.fields, "hooks").Array?
    && exists i :: 0 <= i < |item.fields["hooks"].items| && IsMark(item.fields["hooks"].items[i], marker)
  }

  function Strings(ss: seq<string>): seq<Value> {
    seq(|ss|, i requires 0 <= i < |ss| => Str(ss[i]))
  }

  function Entry(marker: string, cfg: Config): Value {
    Obj(map[
      "matcher" := Str(""),
      "hooks" := Array([Obj(map[
        "type" := Str("http"),
        "url" := Str(cfg.url),
        "timeout" := Number(if cfg.timeout <= 0 then 300.0 else cfg.timeout as real),
        "headers" := Obj(map["Authorization" := Str("Bearer " + cfg.token)]),
        "allowedEnvVars" := Array(Strings(["MOBILECODING_TOKEN"] + cfg.extraEnvVars)),
        "_mobilecoding" := Str(marker)])])])
  }

  function HooksOf(settings: Object): Object {
    var h := Field(settings, "hooks");
    if h.Obj? then h.fields else map[]
  }

  function ListOf(hooks: Object, event: string): seq<Value> {
    var l := Field(hooks, event);
    if l.Array? then l.items else []
  }

  const EVENT := "PermissionRequest"
  const MARKER := "mobilecoding-hook"

  function WithList(settings: Object, list: seq<Value>): Object {
    settings["hooks" := Obj(HooksOf(settings)[EVENT := Array(list)])]
  }

  /** The first marked entry is replaced; without one the new entry goes to the end. */
  function Put(list: seq<Value>, marker: string, e: Value): seq<Value> {
    if list == [] then [e]
    else if Marked(list[0], marker) then [e] + list[1..]
    else [list[0]] + Put(list[1..], marker, e)
  }

  function Upsert(settings: Object, marker: string, cfg: Config): Object {
    WithList(settings, Put(ListOf(HooksOf(settings), EVENT), marker, Entry(marker, cfg)))
  }

  function Unmarked(list: seq<Value>, marker: string): seq<Value> {
    if list == [] then []
    else Unmarked(list[..|list| - 1], marker) +
         if Marked(list[|list| - 1], marker) then [] else [list[|list| - 1]]
  }

  function Cleaned(raw: Value, marker: string): Value {
    if raw.Array? then Array(Unmarked(raw.items, marker)) else raw
  }

  function CleanedHooks(hooks: Object, marker: string): Object {
    map event | event in hooks :: Cleaned(hooks[event], marker)
  }

  function Remove(settings: Object, marker: string): Object {
    if Field(settings, "hooks").Obj?
    then settings["hooks" := Obj(CleanedHooks(settings["hooks"].fields, marker))]
    else settings
  }

  predicate FoundAt(hooks: Object, marker: string, event: string, i: int) {
    0 <= i < |ListOf(hooks, event)| && Marked(ListOf(hooks, event)[i], marker)
  }

  /** Some event's list holds a marked entry. */
  ghost predicate Findable(settings: Object, marker: string) {
    exists event, i :: FoundAt(HooksOf(settings), marker, event, i)
  }

  // ----- Laws of the list -----

  function CountMarked(list: seq<Value>, marker: string): nat {
    if list == [] then 0
    else CountMarked(list[..|list| - 1], marker) + if Marked(list[|list| - 1], marker) then 1 else 0
  }

  lemma EntryIsMarked(marker: string, cfg: Config)
    ensures Marked(Entry(marker, cfg), marker)
  {
    var e := Entry(marker, cfg);
    assert IsMark(e.fields["hooks"].items[0], marker);
  }

  lemma {:induction false} UnmarkedConcat(a: seq<Value>, b: seq<Value>, marker: string)
    ensures Unmarked(a + b, marker) == Unmarked(a, marker) + Unmarked(b, marker)
    ensures CountMarked(a + b, marker) == CountMarked(a, marker) + CountMarked(b, marker)
  {
    hide Marked;
    if b == [] {
      assert a + b == a;
    } else {
      UnmarkedConcat(a, b[..|b| - 1], marker);
      assert (a + b)[..|a + b| - 1] == a + b[..|b| - 1];
    }
  }

  lemma Single(x: Value, marker: string)
    ensures Unmarked([x], marker) == if Marked(x, marker) then [] else [x]
    ensures CountMarked([x], marker) == if Marked(x, marker) then 1 else 0
  {
    hide Marked;
    assert [x][..0] == [];
  }

  /** `Put` leaves the unmarked entries as they are and in order, and leaves one marked entry more only
      if there was none. */
  lemma {:induction false} PutKeepsOthers(list: seq<Value>, marker: string, e: Value)
    requires Marked(e, marker)
    ensures var n := Put(list, marker, e);
            && Unmarked(n, marker) == Unmarked(list, marker)
            && CountMarked(n, marker) == (if CountMarked(list, marker) == 0 then 1 else CountMarked(list, marker))
            && |n| == |list| + (if CountMarked(list, marker) == 0 then 1 else 0)
  {
    hide Marked, Unmarked, CountMarked;
    if list == [] {
      Single(e, marker);
      NoneInEmpty(marker);
    } else {
      var x, rest := list[0], list[1..];
      assert list == [x] + rest;
      UnmarkedConcat([x], rest, marker);
      Single(x, marker);
      if Marked(x, marker) {
        UnmarkedConcat([e], rest, marker);
        Single(e, marker);
      } else {
        PutKeepsOthers(rest, marker, e);
        UnmarkedConcat([x], Put(rest, marker, e), marker);
      }
    }
  }

  lemma NoneInEmpty(marker: string)
    ensures Unmarked([], marker) == [] && CountMarked([], marker) == 0
  {
  }

  /** Only the first marked entry is touched; with none, the new one goes to the end. */
  lemma {:induction false} PutReplacesFirst(list: seq<Value>, marker: string, e: Value, i: nat)
    requires i <= |list| && (i < |list| ==> Marked(list[i], marker))
    requires forall j :: 0 <= j < i ==> !Marked(list[j], marker)
    ensures Put(list, marker, e) == if i < |list| then list[i := e] else list + [e]
  {
    hide Marked;
    if i > 0 {
      var x, rest := list[0], list[1..];
      assert forall j :: 0 <= j < |rest| ==> rest[j] == list[j + 1];
      PutReplacesFirst(rest, marker, e, i - 1);
      assert list == [x] + rest;
      assert i < |list| ==> [x] + rest[i - 1 := e] == list[i := e];
      assert [x] + (rest + [e]) == list + [e];
    }
  }

  /** Replacing what was put is putting the replacement. */
  lemma {:induction false} PutTwice(list: seq<Value>, marker: string, e: Value, f: Value)
    requires Marked(e, marker)
    ensures Put(Put(list, marker, e), marker, f) == Put(list, marker, f)
  {
    hide Marked;
    if list != [] && !Marked(list[0], marker) {
      PutTwice(list[1..], marker, e, f);
      assert Put(list, marker, e)[1..] == Put(list[1..], marker, e);
    }
  }

  lemma {:induction false} NoneLeft(list: seq<Value>, marker: string)
    ensures forall i :: 0 <= i < |Unmarked(list, marker)| ==> !Marked(Unmarked(list, marker)[i], marker)
  {
    hide Marked;
    if list != [] { NoneLeft(list[..|list| - 1], marker); }
  }

  lemma {:induction false} SomeMarked(list: seq<Value>, marker: string)
    requires CountMarked(list, marker) > 0
    ensures exists i :: 0 <= i < |list| && Marked(list[i], marker)
  {
    hide Marked;
    if !Marked(list[|list| - 1], marker) { SomeMarked(list[..|list| - 1], marker); }
  }

  // ----- Laws of the settings -----

  /** The last configuration wins, so repeating an upsert changes nothing. */
  lemma UpsertTwice(settings: Object, marker: string, first: Config, second: Config)
    ensures Upsert(Upsert(settings, marker, first), marker, second) == Upsert(settings, marker, second)
  {
    hide Marked, Put, Entry;
    EntryIsMarked(marker, first);
    var list := ListOf(HooksOf(settings), EVENT);
    PutTwice(list, marker, Entry(marker, first), Entry(marker, second));
    var u := Upsert(settings, marker, first);
    assert ListOf(HooksOf(u), EVENT) == Put(list, marker, Entry(marker, first));
    assert HooksOf(u)[EVENT := Array([])] == HooksOf(settings)[EVENT := Array([])];
    WithListTwice(settings, Put(list, marker, Entry(marker, first)), Put(list, marker, Entry(marker, second)));
  }

  lemma WithListTwice(settings: Object, a: seq<Value>, b: seq<Value>)
    ensures WithList(WithList(settings, a), b) == WithList(settings, b)
  {
    assert HooksOf(WithList(settings, a)) == HooksOf(settings)[EVENT := Array(a)];
    assert HooksOf(settings)[EVENT := Array(a)][EVENT := Array(b)] == HooksOf(settings)[EVENT := Array(b)];
  }

  /** An upsert leaves max(1, before) marked entries in the event's list, the other entries in order,
      and every other event and every other setting untouched; the hook can be found afterwards. */
  lemma UpsertKeepsOthers(settings: Object, marker: string, cfg: Config)
    ensures var u := Upsert(settings, marker, cfg);
            var before, after := ListOf(HooksOf(settings), EVENT), ListOf(HooksOf(u), EVENT);
            && CountMarked(after, marker) == (if CountMarked(before, marker) == 0 then 1 else CountMarked(before, marker))
            && Unmarked(after, marker) == Unmarked(before, marker)
            && HooksOf(u) - {EVENT} == HooksOf(settings) - {EVENT}
            && u - {"hooks"} == settings - {"hooks"}
            && Findable(u, marker)
  {
    hide Marked, Put, Entry, Unmarked, CountMarked;
    EntryIsMarked(marker, cfg);
    var before := ListOf(HooksOf(settings), EVENT);
    PutKeepsOthers(before, marker, Entry(marker, cfg));
    var u := Upsert(settings, marker, cfg);
    var after := ListOf(HooksOf(u), EVENT);
    assert after == Put(before, marker, Entry(marker, cfg));
    SomeMarked(after, marker);
    var i :| 0 <= i < |after| && Marked(after[i], marker);
    assert FoundAt(HooksOf(u), marker, EVENT, i);
  }

  lemma NothingFoundAfterRemove(settings: Object, marker: string)
    ensures !Findable(Remove(settings, marker), marker)
  {
    hide Marked, Unmarked;
    var hooks := HooksOf(Remove(settings, marker));
    forall event, i ensures !FoundAt(hooks, marker, event, i) {
      if event in hooks && hooks[event].Array? {
        NoneLeft(ListOf(HooksOf(settings), event), marker);
      }
    }
  }

  /** Removal is final: a second one finds nothing more to remove. */
  lemma {:induction false} UnmarkedTwice(list: seq<Value>, marker: string)
    ensures Unmarked(Unmarked(list, marker), marker) == Unmarked(list, marker)
  {
    hide Marked;
    if list != [] {
      var p, x := list[..|list| - 1], list[|list| - 1];
      UnmarkedTwice(p, marker);
      UnmarkedConcat(Unmarked(p, marker), [x], marker);
      Single(x, marker);
      assert Unmarked(p, marker) + [] == Unmarked(p, marker);
    }
  }

  lemma RemoveTwice(settings: Object, marker: string)
    ensures Remove(Remove(settings, marker), marker) == Remove(settings, marker)
  {
    hide Unmarked;
    if Field(settings, "hooks").Obj? {
      var hooks := settings["hooks"].fields;
      forall event | event in hooks
        ensures Cleaned(Cleaned(hooks[event], marker), marker) == Cleaned(hooks[event], marker)
      {
        if hooks[event].Array? { UnmarkedTwice(hooks[event].items, marker); }
      }
      assert CleanedHooks(CleanedHooks(hooks, marker), marker) == CleanedHooks(hooks, marker);
    }
  }

  /** The settings with an absent hooks object, or an absent event list, spelled out as empty. */
  function SpelledOut(settings: Object): Object {
    WithList(settings, ListOf(HooksOf(settings), EVENT))
  }

  predicate WellFormed(settings: Object) {
    Field(settings, "hooks").Obj? && Field(HooksOf(settings), EVENT).Array?
  }

  /** Removing after an upsert is removing alone, an absent list being read as empty. */
  lemma RemoveUndoesUpsert(settings: Object, marker: string, cfg: Config)
    ensures Remove(Upsert(settings, marker, cfg), marker) == Remove(SpelledOut(settings), marker)
  {
    hide Marked, Put, Entry, Unmarked, CountMarked;
    EntryIsMarked(marker, cfg);
    var list := ListOf(HooksOf(settings), EVENT);
    PutKeepsOthers(list, marker, Entry(marker, cfg));
    RemoveOfList(settings, Put(list, marker, Entry(marker, cfg)), list, marker);
  }

  lemma RemoveOfList(settings: Object, a: seq<Value>, b: seq<Value>, marker: string)
    requires Unmarked(a, marker) == Unmarked(b, marker)
    ensures Remove(WithList(settings, a), marker) == Remove(WithList(settings, b), marker)
  {
    hide Unmarked;
    assert CleanedHooks(HooksOf(settings)[EVENT := Array(a)], marker) ==
           CleanedHooks(HooksOf(settings)[EVENT := Array(b)], marker);
  }

  /** So an upsert followed by a removal is a plain removal exactly on settings that already have the
      event's list: otherwise an empty list, and perhaps an empty hooks object, stays behind. */
  lemma RemoveUndoesUpsertExactly(settings: Object, marker: string, cfg: Config)
    ensures Remove(Upsert(settings, marker, cfg), marker) == Remove(settings, marker) <==> WellFormed(settings)
  {
    hide Marked, Unmarked, Upsert;
    RemoveUndoesUpsert(settings, marker, cfg);
    var left, right := Remove(SpelledOut(settings), marker), Remove(settings, marker);
    if WellFormed(settings) {
      assert HooksOf(settings)[EVENT := Array(ListOf(HooksOf(settings), EVENT))] == HooksOf(settings);
      assert SpelledOut(settings) == settings;
    } else {
      assert Field(left, "hooks").Obj? && Field(HooksOf(left), EVENT).Array?;
    }
  }

  // ----- The two files -----

  datatype File = Absent | Garbage(text: string) | Parsed(v: Value)

  datatype Files = Files(settings: File, backup: File)

  datatype Outcome = Done | Failed | Panicked  // writing into a nil map panics

  /** Which calls of the file system fail during an operation: making the directory, reading and writing
      the settings, reading, writing and removing the backup. A failed write leaves the file alone. */
  datatype Faults = Faults(
    mkdir: bool, read: bool, write: bool, readBackup: bool, writeBackup: bool, removeBackup: bool)

  const NO_FAULTS := Faults(false, false, false, false, false, false)

  /** Reading a JSON object gives its map, reading `null` a nil map; anything else is an error. */
  predicate Readable(f: File) {
    f.Absent? || (f.Parsed? && (f.v.Obj? || f.v.Null?))
  }

  /** A file that does not exist is read as the empty object. */
  function AsRead(f: File): File {
    if f.Absent? then Parsed(Obj(map[])) else f
  }

  /** A file that is there may still fail to be read. */
  predicate CanRead(f: File, fails: bool) {
    Readable(f) && (f.Absent? || !fails)
  }

  /** The backup is written once, and an error in writing it is not noticed. */
  function BackedUp(f: Files, io: Faults): Files {
    if f.backup.Absent? && !io.writeBackup then f.(backup := AsRead(f.settings)) else f
  }

  function WriteSettings(f: Files, v: Value, io: Faults): (Files, Outcome) {
    if io.write then (f, Failed) else (f.(settings := Parsed(v)), Done)
  }

  function Installing(f: Files, marker: string, cfg: Config, io: Faults): (Files, Outcome) {
    if io.mkdir || !CanRead(f.settings, io.read) then (f, Failed)
    else
      var original := AsRead(f.settings).v;
      if original.Obj? then WriteSettings(BackedUp(f, io), Obj(Upsert(original.fields, marker, cfg)), io)
      else (BackedUp(f, io), Panicked)
  }

  function RemoveInstalled(f: Files, marker: string, io: Faults): (Files, Outcome) {
    if f.settings.Absent? then (f, Done)
    else if !CanRead(f.settings, io.read) then (f, Failed)
    else WriteSettings(f, if f.settings.v.Obj? then Obj(Remove(f.settings.v.fields, marker)) else Null, io)
  }

  /** A backup that cannot be read is passed over, one that cannot be removed stays. */
  function Uninstalling(f: Files, marker: string, io: Faults): (Files, Outcome) {
    if f.backup.Absent? || io.readBackup then RemoveInstalled(f, marker, io)
    else if io.write then (f, Failed)
    else (Files(f.backup, if io.removeBackup then f.backup else Absent), Done)
  }

  ghost predicate Installed(f: File, marker: string) {
    f.Parsed? && f.v.Obj? && Findable(f.v.fields, marker)
  }

  /** Operations that do not uninstall; `Edit` is someone else writing the settings file. */
  datatype Op = InstallAgain(cfg: Config, io: Faults) | RemoveOurs(io: Faults) | Edit(file: File)

  function Step(f: Files, marker: string, op: Op): Files {
    match op
    case InstallAgain(cfg, io) => Installing(f, marker, cfg, io).0
    case RemoveOurs(io) => RemoveInstalled(f, marker, io).0
    case Edit(file) => f.(settings := file)
  }

  function Run(f: Files, marker: string, ops: seq<Op>): Files {
    if ops == [] then f else Step(Run(f, marker, ops[..|ops| - 1]), marker, ops[|ops| - 1])
  }

  lemma {:induction false} BackupStays(f: Files, marker: string, ops: seq<Op>)
    requires !f.backup.Absent?
    ensures Run(f, marker, ops).backup == f.backup
  {
    if ops != [] { BackupStays(f, marker, ops[..|ops| - 1]); }
  }

  /** An operation that fails leaves the settings as they are. */
  lemma FailureChangesNothing(f: Files, marker: string, cfg: Config, io: Faults)
    ensures Installing(f, marker, cfg, io).1.Failed? ==> Installing(f, marker, cfg, io).0.settings == f.settings
    ensures RemoveInstalled(f, marker, io).1.Failed? ==> RemoveInstalled(f, marker, io).0 == f
    ensures Uninstalling(f, marker, io).1.Failed? ==> Uninstalling(f, marker, io).0 == f
  {
    hide Upsert, Remove;
  }

  /** Which file an install backs up, if any. */
  predicate Backs(f: Files, io: Faults) {
    f.backup.Absent? && !io.mkdir && !io.writeBackup && CanRead(f.settings, io.read)
  }

  /** With no earlier backup, the first install that can read the file and write the backup decides what
      an uninstall brings back: that file as it was read, whatever is installed, removed or edited in
      between and whichever of that fails. */
  lemma UninstallRestoresTheFirst(f: Files, marker: string, cfg: Config, io: Faults, ops: seq<Op>, last: Faults)
    requires Backs(f, io) && !last.readBackup && !last.write
    ensures Uninstalling(Run(Installing(f, marker, cfg, io).0, marker, ops), marker, last) ==
            (Files(AsRead(f.settings), if last.removeBackup then AsRead(f.settings) else Absent), Done)
  {
    hide Upsert;
    BackupStays(Installing(f, marker, cfg, io).0, marker, ops);
  }

  /** So an edit made after the first install is lost: the file that someone else has written last is
      what an uninstall leaves only if it is the original. */
  lemma EditsAreLost(f: Files, marker: string, cfg: Config, ops: seq<Op>, edited: File)
    requires Backs(f, NO_FAULTS)
    ensures var g := Run(Installing(f, marker, cfg, NO_FAULTS).0, marker, ops + [Edit(edited)]);
            && g.settings == edited
            && (Uninstalling(g, marker, NO_FAULTS).0.settings == edited <==> edited == AsRead(f.settings))
  {
    hide Upsert;
    var h := Installing(f, marker, cfg, NO_FAULTS).0;
    assert (ops + [Edit(edited)])[..|ops + [Edit(edited)]| - 1] == ops;
    UninstallRestoresTheFirst(f, marker, cfg, NO_FAULTS, ops + [Edit(edited)], NO_FAULTS);
  }

  /** An uninstall leaves the settings that plain removal leaves exactly if there is no backup, or the
      backup is those settings. */
  lemma UninstallIsRemovalExactly(f: Files, marker: string)
    ensures Uninstalling(f, marker, NO_FAULTS).0.settings == RemoveInstalled(f, marker, NO_FAULTS).0.settings <==>
            f.backup.Absent? || f.backup == RemoveInstalled(f, marker, NO_FAULTS).0.settings
  {
    hide Remove;
  }

  /** When the backup cannot be written nobody notices, and the next install backs up a file with the
      hook in it: the uninstall then leaves the hook of the first configuration installed. */
  lemma LostBackupKeepsTheHook(o: Object, marker: string, first: Config, second: Config)
    ensures var f := Files(Parsed(Obj(o)), Absent);
            var one := Installing(f, marker, first, NO_FAULTS.(writeBackup := true));
            var two := Installing(one.0, marker, second, NO_FAULTS);
            var gone := Uninstalling(two.0, marker, NO_FAULTS);
            && one.1.Done? && two.1.Done? && gone.1.Done?
            && gone.0.settings == Parsed(Obj(Upsert(o, marker, first)))
            && Installed(gone.0.settings, marker)
  {
    hide Upsert, Findable;
    UpsertKeepsOthers(o, marker, first);
  }

  function InstallAll(f: Files, marker: string, cfgs: seq<Config>): Files {
    if cfgs == [] then f
    else Installing(InstallAll(f, marker, cfgs[..|cfgs| - 1]), marker, cfgs[|cfgs| - 1], NO_FAULTS).0
  }

  lemma {:induction false} InstallsKeepBackup(f: Files, marker: string, cfgs: seq<Config>)
    requires f.backup.Absent?
    ensures InstallAll(f, marker, cfgs).backup ==
            if cfgs == [] || !Readable(f.settings) then Absent else AsRead(f.settings)
    ensures !Readable(f.settings) || cfgs == [] ==> InstallAll(f, marker, cfgs) == f
  {
    hide Upsert;
    if cfgs != [] { InstallsKeepBackup(f, marker, cfgs[..|cfgs| - 1]); }
  }

  /** Any number of installs, at least one, and then an uninstall: the settings are what they were,
      those of a file that cannot be parsed included, and no backup is left. */
  lemma {:induction false} InstallsThenUninstall(f: Files, marker: string, cfgs: seq<Config>)
    requires f.backup.Absent? && cfgs != []
    ensures Uninstalling(InstallAll(f, marker, cfgs), marker, NO_FAULTS).0 == Files(AsRead(f.settings), Absent)
  {
    InstallsKeepBackup(f, marker, cfgs);
  }

  /** The hook is there after an install that did its work, and gone after such a removal. After an
      uninstall that did its work it is there exactly if a backup with the hook in it was brought back. */
  lemma WhenInstalled(f: Files, marker: string, cfg: Config, io: Faults)
    ensures Installing(f, marker, cfg, io).1.Done? ==> Installed(Installing(f, marker, cfg, io).0.settings, marker)
    ensures RemoveInstalled(f, marker, io).1.Done? ==> !Installed(RemoveInstalled(f, marker, io).0.settings, marker)
    ensures Uninstalling(f, marker, io).1.Done? ==>
              (Installed(Uninstalling(f, marker, io).0.settings, marker) <==>
                 !f.backup.Absent? && !io.readBackup && Installed(f.backup, marker))
  {
    hide Findable, Upsert, Remove;
    if f.settings.Absent? { UpsertKeepsOthers(map[], marker, cfg); }
    if f.settings.Parsed? && f.settings.v.Obj? {
      UpsertKeepsOthers(f.settings.v.fields, marker, cfg);
      NothingFoundAfterRemove(f.settings.v.fields, marker);
    }
  }

  // ----- The injector -----

  method HasMarker(item: Value, marker: string) returns (found: bool)
    ensures found == Marked(item, marker)
  {
    found := false;
    if !item.Obj? || !Field(item.fields, "hooks").Array? { return; }
    var hs := item.fields["hooks"].items;
    for i := 0 to |hs|
      invariant forall j :: 0 <= j < i ==> !IsMark(hs[j], marker)
    {
      if hs[i].Obj? && Field(hs[i].fields, "_mobilecoding") == Str(marker) { return true; }
    }
  }

  predicate NoneMarkedBefore(list: seq<Value>, marker: string, i: nat) {
    forall j :: 0 <= j < i && j < |list| ==> !Marked(list[j], marker)
  }

  /** The loop of `upsertHook`, with its flag. */
  method PutEntry(before: seq<Value>, marker: string, entry: Value) returns (list: seq<Value>)
    ensures list == Put(before, marker, entry)
  {
    hide Marked, Put;
    list := before;
    var replaced := false;
    for i := 0 to |list|
      invariant !replaced && list == before && NoneMarkedBefore(before, marker, i)
    {
      var marked := HasMarker(list[i], marker);
      if marked {
        PutReplacesFirst(before, marker, entry, i);
        list := list[i := entry];
        replaced := true;
        break;
      }
    }
    if !replaced {
      PutReplacesFirst(before, marker, entry, |before|);
      list := list + [entry];
    }
  }

  method UpsertHook(settings: Object, marker: string, cfg: Config) returns (updated: Object)
    ensures updated == Upsert(settings, marker, cfg)
  {
    hide Put, Entry;
    var hooks: Object := map[];
    if Field(settings, "hooks").Obj? { hooks := settings["hooks"].fields; }
    var list := [];
    if Field(hooks, EVENT).Array? { list := hooks[EVENT].items; }
    list := PutEntry(list, marker, Entry(marker, cfg));
    updated := settings["hooks" := Obj(hooks[EVENT := Array(list)])];
  }

  method FilterMarked(list: seq<Value>, marker: string) returns (filtered: seq<Value>)
    ensures filtered == Unmarked(list, marker)
  {
    hide Marked;
    filtered := [];
    for i := 0 to |list|
      invariant filtered == Unmarked(list[..i], marker)
    {
      assert list[..i + 1][..i] == list[..i];
      var marked := HasMarker(list[i], marker);
      if !marked { filtered := filtered + [list[i]]; }
    }
    assert list[..|list|] == list;
  }

  method RemoveHook(settings: Object, marker: string) returns (updated: Object)
    ensures updated == Remove(settings, marker)
  {
    hide Unmarked;
    if !Field(settings, "hooks").Obj? { return settings; }
    var hooks := settings["hooks"].fields;
    ghost var before := hooks;
    var todo := hooks.Keys;
    while todo != {}
      invariant todo <= hooks.Keys == before.Keys
      invariant forall event :: event in todo ==> hooks[event] == before[event]
      invariant forall event :: event in hooks && event !in todo ==> hooks[event] == Cleaned(before[event], marker)
      decreases |todo|
    {
      var event :| event in todo;
      if hooks[event].Array? {
        var filtered := FilterMarked(hooks[event].items, marker);
        hooks := hooks[event := Array(filtered)];
      }
      todo := todo - {event};
    }
    assert hooks == CleanedHooks(before, marker);
    updated := settings["hooks" := Obj(hooks)];
  }

  /** -1 if there is none; which one is found, when there are several events, is not determined. */
  method FindHookByMarker(hooks: Object, marker: string) returns (event: string, index: int)
    ensures index >= 0 ==> FoundAt(hooks, marker, event, index)
    ensures index < 0 ==> forall e, i :: !FoundAt(hooks, marker, e, i)
  {
    var todo := hooks.Keys;
    while todo != {}
      invariant todo <= hooks.Keys
      invariant forall e, i :: FoundAt(hooks, marker, e, i) ==> e in todo
      decreases |todo|
    {
      event :| event in todo;
      var list := ListOf(hooks, event);
      for i := 0 to |list|
        invariant forall j :: 0 <= j < i ==> !Marked(list[j], marker)
      {
        var marked := HasMarker(list[i], marker);
        if marked { return event, i; }
      }
      todo := todo - {event};
    }
    return "", -1;
  }

  class SettingsInjector {
    var settingsFile: File
    var backupFile: File
    const marker := MARKER

    function Now(): Files
      reads this
    {
      Files(settingsFile, backupFile)
    }

    constructor (settings: File, backup: File)
      ensures Now() == Files(settings, backup)
    {
      settingsFile, backupFile := settings, backup;
    }

    method Write(v: Value, io: Faults) returns (r: Outcome)
      modifies this`settingsFile
      ensures (Now(), r) == WriteSettings(old(Now()), v, io)
    {
      if io.write { return Failed; }
      settingsFile := Parsed(v);
      return Done;
    }

    method Install(cfg: Config, io: Faults) returns (r: Outcome)
      modifies this
      ensures (Now(), r) == Installing(old(Now()), marker, cfg, io)
    {
      hide Upsert;
      if io.mkdir { return Failed; }
      var original := Obj(map[]);
      if !settingsFile.Absent? {
        if io.read { return Failed; }
        if settingsFile.Garbage? || !(settingsFile.v.Obj? || settingsFile.v.Null?) { return Failed; }
        original := settingsFile.v;
      }
      if backupFile.Absent? && !io.writeBackup { backupFile := Parsed(original); }
      if original.Null? { return Panicked; }
      var updated := UpsertHook(original.fields, marker, cfg);
      r := Write(Obj(updated), io);
    }

    method RemoveInstalledHook(io: Faults) returns (r: Outcome)
      modifies this`settingsFile
      ensures (Now(), r) == RemoveInstalled(old(Now()), marker, io)
    {
      hide Remove;
      if settingsFile.Absent? { return Done; }
      if io.read { return Failed; }
      if settingsFile.Garbage? || !(settingsFile.v.Obj? || settingsFile.v.Null?) { return Failed; }
      var settings := settingsFile.v;
      if settings.Obj? {
        var updated := RemoveHook(settings.fields, marker);
        settings := Obj(updated);
      }
      r := Write(settings, io);
    }

    method Uninstall(io: Faults) returns (r: Outcome)
      modifies this
      ensures (Now(), r) == Uninstalling(old(Now()), marker, io)
    {
      if !backupFile.Absent? {
        var data := backupFile;
        if !io.readBackup {
          if io.write { return Failed; }
          settingsFile := data;
          if !io.removeBackup { backupFile := Absent; }
          return Done;
        }
      }
      r := RemoveInstalledHook(io);
    }

    method IsInstalled(io: Faults) returns (r: bool)
      ensures r == (!io.read && Installed(settingsFile, marker))
    {
      if io.read || !settingsFile.Parsed? || !settingsFile.v.Obj? { return false; }
      var hooks := Field(settingsFile.v.fields, "hooks");
      if !hooks.Obj? { return false; }
      var event, index := FindHookByMarker(hooks.fields, marker);
      assert hooks.fields == HooksOf(settingsFile.v.fields);
      assert index >= 0 ==> FoundAt(HooksOf(settingsFile.v.fields), marker, event, index);
      return index >= 0;
    }
  }
}
