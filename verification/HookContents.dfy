/** What an installed hook says, what an install and a removal leave alone, and when they fail
    (internal/hook/settings.go:60-279). */
module HookContents {
  import opened Json
  import opened HookSettings

  /** The entry asks for one HTTP hook, for every tool, as configured: where to, with which token, for how
      long (five minutes if nothing sensible is said), and with which variables. */
  predicate Says(entry: Value, marker: string, cfg: Config) {
    && entry.Obj? && Field(entry.fields, "matcher") == Str("")
    && Field(entry.fields, "hooks").Array? && |Field(entry.fields, "hooks").items| == 1
    && Field(entry.fields, "hooks").items[0].Obj?
    && var hook := Field(entry.fields, "hooks").items[0].fields;
       && Field(hook, "type") == Str("http")
       && Field(hook, "url") == Str(cfg.url)
       && Field(hook, "headers") == Obj(map["Authorization" := Str("Bearer " + cfg.token)])
       && Field(hook, "timeout") == Number(if cfg.timeout > 0 then cfg.timeout as real else 300.0)
       && Field(hook, "allowedEnvVars").Array?
       && Names(Field(hook, "allowedEnvVars").items, ["MOBILECODING_TOKEN"] + cfg.extraEnvVars)
       && Field(hook, "_mobilecoding") == Str(marker)
  }

  predicate Names(items: seq<Value>, names: seq<string>) {
    |items| == |names| && forall i :: 0 <= i < |names| ==> items[i] == Str(names[i])
  }

  lemma EntrySays(marker: string, cfg: Config)
    ensures Says(Entry(marker, cfg), marker, cfg)
  {
  }

  /** The first marked entry of the list, the end of the list if there is none. */
  predicate FirstMarked(list: seq<Value>, marker: string, i: nat) {
    && i <= |list| && (i < |list| ==> Marked(list[i], marker))
    && forall j :: 0 <= j < i ==> !Marked(list[j], marker)
  }

  lemma {:induction false} FindFirst(list: seq<Value>, marker: string) returns (i: nat)
    ensures FirstMarked(list, marker, i)
  {
    hide Marked;
    if list == [] || Marked(list[0], marker) {
      i := 0;
    } else {
      var k := FindFirst(list[1..], marker);
      i := k + 1;
      forall j | 0 <= j < i ensures !Marked(list[j], marker) {
        if j > 0 { assert list[j] == list[1..][j - 1]; }
      }
    }
  }

  /** `after` is `before` with a new entry in the place of the first marked one. */
  ghost predicate Replaced(before: seq<Value>, after: seq<Value>, marker: string, cfg: Config) {
    exists i: nat :: FirstMarked(before, marker, i) && i < |after| && Says(after[i], marker, cfg) &&
                after == before[..i] + [after[i]] + if i < |before| then before[i + 1..] else []
  }

  lemma UpsertReplaces(settings: Object, marker: string, cfg: Config)
    ensures var u := Upsert(settings, marker, cfg);
            Replaced(ListOf(HooksOf(settings), EVENT), ListOf(HooksOf(u), EVENT), marker, cfg)
  {
    hide Marked, Put, Entry, Says;
    var before, e := ListOf(HooksOf(settings), EVENT), Entry(marker, cfg);
    var after := ListOf(HooksOf(Upsert(settings, marker, cfg)), EVENT);
    EntrySays(marker, cfg);
    var i := FindFirst(before, marker);
    PutReplacesFirst(before, marker, e, i);
    assert after == Put(before, marker, e) && after[i] == e;
    if i < |before| {
      assert before[i := e] == before[..i] + [e] + before[i + 1..];
    } else {
      assert before + [e] == before[..i] + [e] + [];
    }
  }

  /** An install that is done has put its hook, as configured, in the place of the first one of ours, or at
      the end, and changed nothing else in the file. It is done if and only if the directory can be made,
      the file can be read, is an object or absent, and can be written. */
  lemma InstallWrites(f: Files, marker: string, cfg: Config, io: Faults)
    ensures Installing(f, marker, cfg, io).1.Done? <==>
            !io.mkdir && CanRead(f.settings, io.read) && AsRead(f.settings).v.Obj? && !io.write
    ensures Installing(f, marker, cfg, io).1.Done? ==>
              var old_, new_ := AsRead(f.settings).v.fields, Installing(f, marker, cfg, io).0.settings;
              && new_.Parsed? && new_.v.Obj?
              && Replaced(ListOf(HooksOf(old_), EVENT), ListOf(HooksOf(new_.v.fields), EVENT), marker, cfg)
              && HooksOf(new_.v.fields) - {EVENT} == HooksOf(old_) - {EVENT}
              && new_.v.fields - {"hooks"} == old_ - {"hooks"}
  {
    hide Upsert, Replaced, Findable, Unmarked, CountMarked;
    if Installing(f, marker, cfg, io).1.Done? {
      UpsertReplaces(AsRead(f.settings).v.fields, marker, cfg);
      UpsertKeepsOthers(AsRead(f.settings).v.fields, marker, cfg);
    }
  }

  // ----- Removal -----

  /** `after` is what stands at these offsets of `before`, from left to right. */
  ghost predicate At(before: seq<Value>, after: seq<Value>, at: seq<nat>) {
    && |at| == |after|
    && (forall k :: 0 <= k < |at| ==> at[k] < |before| && after[k] == before[at[k]])
    && (forall j, k :: 0 <= j < k < |at| ==> at[j] < at[k])
  }

  /** These are the offsets of the unmarked entries. */
  ghost predicate Offsets(list: seq<Value>, marker: string, at: seq<nat>) {
    forall i :: 0 <= i < |list| ==> (i in at <==> !Marked(list[i], marker))
  }

  /** `after` holds exactly the unmarked entries of `before`, in their order. */
  ghost predicate KeepsUnmarked(before: seq<Value>, after: seq<Value>, marker: string) {
    exists at: seq<nat> :: At(before, after, at) && Offsets(before, marker, at)
  }

  lemma OneMore(before: seq<Value>, after: seq<Value>, at: seq<nat>, x: Value, kept: bool)
    requires At(before, after, at)
    ensures At(before + [x], after + if kept then [x] else [], at + if kept then [|before|] else [])
  {
    assert after + [] == after && at + [] == at;
  }

  lemma OffsetsMore(list: seq<Value>, marker: string, after: seq<Value>, at: seq<nat>, x: Value)
    requires Offsets(list, marker, at) && At(list, after, at)
    ensures Offsets(list + [x], marker, at + if Marked(x, marker) then [] else [|list|])
  {
    hide Marked;
    assert |list| !in at;
    var more := at + if Marked(x, marker) then [] else [|list|];
    forall i | 0 <= i < |list + [x]| ensures i in more <==> !Marked((list + [x])[i], marker) {
      assert i < |list| ==> (i in more <==> i in at);
    }
  }

  lemma {:induction false} UnmarkedAt(list: seq<Value>, marker: string) returns (at: seq<nat>)
    ensures At(list, Unmarked(list, marker), at) && Offsets(list, marker, at)
  {
    hide Marked, At, Offsets;
    if list == [] {
      at := [];
      NothingAt(marker);
    } else {
      var init, x := list[..|list| - 1], list[|list| - 1];
      var some := UnmarkedAt(init, marker);
      at := some + if Marked(x, marker) then [] else [|init|];
      OneMore(init, Unmarked(init, marker), some, x, !Marked(x, marker));
      OffsetsMore(init, marker, Unmarked(init, marker), some, x);
      assert list == init + [x];
    }
  }

  lemma NothingAt(marker: string)
    ensures At([], [], []) && Offsets([], marker, [])
  {
  }

  /** A removal takes our entries out of every event's list, and leaves every other entry, event and setting
      as it is and where it is. */
  lemma RemoveKeepsOthers(settings: Object, marker: string)
    ensures var u := Remove(settings, marker);
            && u.Keys == settings.Keys && u - {"hooks"} == settings - {"hooks"}
            && (!Field(settings, "hooks").Obj? ==> u == settings)
            && HooksOf(u).Keys == HooksOf(settings).Keys
            && forall event :: event in HooksOf(settings) ==>
                 var before, after := HooksOf(settings)[event], HooksOf(u)[event];
                 if before.Array? then after.Array? && KeepsUnmarked(before.items, after.items, marker)
                 else after == before
  {
    hide Unmarked, KeepsUnmarked;
    forall event | event in HooksOf(settings) && HooksOf(settings)[event].Array?
      ensures KeepsUnmarked(HooksOf(settings)[event].items, Unmarked(HooksOf(settings)[event].items, marker), marker)
    {
      UnmarkedKeeps(HooksOf(settings)[event].items, marker);
    }
  }

  lemma UnmarkedKeeps(list: seq<Value>, marker: string)
    ensures KeepsUnmarked(list, Unmarked(list, marker), marker)
  {
    hide Unmarked, Marked, At, Offsets;
    var at := UnmarkedAt(list, marker);
  }

  /** A removal is done if and only if there is no file, or it can be read and written. An uninstall with a
      backup that can be read is done exactly if the file can be written, any other as a removal is. */
  lemma WhenDone(f: Files, marker: string, io: Faults)
    ensures RemoveInstalled(f, marker, io).1.Done? <==>
            f.settings.Absent? || (Readable(f.settings) && !io.read && !io.write)
    ensures RemoveInstalled(f, marker, io).1.Done? && f.settings.Parsed? && f.settings.v.Obj? ==>
              RemoveInstalled(f, marker, io).0.settings == Parsed(Obj(Remove(f.settings.v.fields, marker)))
    ensures !f.backup.Absent? && !io.readBackup ==> (Uninstalling(f, marker, io).1.Done? <==> !io.write)
    ensures f.backup.Absent? || io.readBackup ==> Uninstalling(f, marker, io) == RemoveInstalled(f, marker, io)
  {
    hide Remove;
  }
}
