/** The durable preference: a staged atomic replacement of one small file, any stage of which
    may fail, and during which the process may die or the power may go. */
module Preference {
  import opened Basics
  import opened Controller
  import opened AutoUse

  /** The JSON form of the preference; `parse` includes the checks on the file's metadata. */
  datatype Codec = Codec(encode: bool -> Bytes, parse: Bytes -> Option<bool>)
  {
    ghost predicate Lawful() { forall b :: parse(encode(b)) == Some(b) }
  }

  datatype File = File(content: Bytes, synced: bool)

  datatype Loaded = Value(enabled: bool) | Missing | Invalid

  function Load(codec: Codec, f: Option<File>): Loaded {
    if f.None? then Missing
    else if codec.parse(f.value.content).None? then Invalid
    else Value(codec.parse(f.value.content).value)
  }

  datatype WriteStage = Create | WriteAll | FileSync | Rename | DirectorySync

  /** What befalls a write: nothing, one stage that fails, or the death of the process. */
  datatype Fate = Unharmed | FailsAt(stage: WriteStage) | DiesBefore(stage: WriteStage)

  /** Only the last stage comes after the rename. */
  predicate Renamed(fate: Fate) { fate.Unharmed? || fate.stage == DirectorySync }

  datatype WriteResult = Written | Failed | Died

  /** The preference's directory. `config` is what the name shows now; `durable` is what it may
      show after a power loss, namely every version since the directory was last synced. */
  class ConfigStore {
    const codec: Codec
    var config: Option<File>
    var durable: set<Option<File>>
    var temps: map<nat, File>
    var nextTemp: nat

    /** No version of the file that could come back was ever unsynced. */
    ghost predicate Valid()
      reads this
    {
      config in durable && forall f | f in durable && f.Some? :: f.value.synced
    }

    constructor (codec: Codec, config: Option<File>)
      requires config.Some? ==> config.value.synced
      ensures Valid() && this.codec == codec && this.config == config
    {
      this.codec, this.config, this.durable, this.temps, this.nextTemp := codec, config, {config}, map[], 0;
    }

    function Read(): (r: Loaded)
      reads this
    {
      Load(codec, config)
    }

    /** Someone else replaces the file. */
    method Tamper(content: Bytes)
      modifies this
      ensures Valid() && config == Some(File(content, true)) && durable == {config}
    {
      config := Some(File(content, true));
      durable := {config};
    }

    /** The power goes: one of the versions comes back, and an unsynced one comes back as
        anything at all. */
    method LosePower(garbage: Bytes, choice: Option<File>)
      requires Valid() && choice in durable
      modifies this
      ensures Valid() && config == choice && config in old(durable)
    {
      config := if choice.Some? && !choice.value.synced then Some(File(garbage, true)) else choice;
      durable, temps := {config}, map[];
    }

    /** Writes the value through a temporary file. It is written exactly if no stage fails and the
        process lives; once the rename is done the file is the new one, and before it the old. */
    method Write(enabled: bool, fate: Fate) returns (result: WriteResult)
      requires Valid()
      modifies this
      ensures Valid()
      ensures var wanted := Some(File(codec.encode(enabled), true));
              && durable <= old(durable) + {wanted}
              && config == (if Renamed(fate) then wanted else old(config))
              && (result == Written ==> durable == {wanted})
      ensures result == match fate case Unharmed => Written case FailsAt(_) => Failed case DiesBefore(_) => Died
    {
      var name := nextTemp;
      result := Replace(name, enabled, fate);
      if result == Failed {
        var unlinked: bool := *;
        if unlinked { temps := temps - {name}; }
      }
    }

    method Replace(name: nat, enabled: bool, fate: Fate) returns (result: WriteResult)
      requires Valid()
      modifies this
      ensures Valid()
      ensures var wanted := Some(File(codec.encode(enabled), true));
              && durable <= old(durable) + {wanted}
              && config == (if Renamed(fate) then wanted else old(config))
              && (result == Written ==> durable == {wanted})
      ensures result == match fate case Unharmed => Written case FailsAt(_) => Failed case DiesBefore(_) => Died
    {
      var bytes := codec.encode(enabled);
      if fate == DiesBefore(Create) { return Died; }
      if fate == FailsAt(Create) { return Failed; }
      nextTemp := nextTemp + 1;
      temps := temps[name := File([], false)];
      if fate == DiesBefore(WriteAll) { return Died; }
      if fate == FailsAt(WriteAll) {
        // Any part may have been written.
        var part: int := *;
        temps := temps[name := File(if 0 <= part <= |bytes| then bytes[..part] else [], false)];
        return Failed;
      }
      temps := temps[name := File(bytes, false)];
      if fate == DiesBefore(FileSync) { return Died; }
      if fate == FailsAt(FileSync) { return Failed; }
      temps := temps[name := File(bytes, true)];
      if fate == DiesBefore(Rename) { return Died; }
      if fate == FailsAt(Rename) { return Failed; }
      config := Some(temps[name]);
      durable := durable + {config};
      temps := temps - {name};
      if fate == DiesBefore(DirectorySync) { return Died; }
      if fate == FailsAt(DirectorySync) { return Failed; }
      durable := {config};
      result := Written;
    }
  }

  // ----- The control -----------------------------------------------------------------------------

  datatype Persistence = Saved | Default | Error

  datatype AutoUsePreference = AutoUsePreference(enabled: bool, persistence: Persistence)

  datatype SetResult = Accepted(preference: AutoUsePreference) | Refused | Crashed

  /** What may happen to the preference: the control is asked, with what befalls its
      write; or someone else replaces the file. */
  datatype Event = Ask(enabled: bool, fate: Fate) | Edit(content: Bytes)

  datatype Entry = Asked(enabled: bool, result: SetResult) | Edited(content: Bytes)

  /** What a start may load after one more event: an accepted value or an edit replaces
      everything, and a value asked for in vain may or may not have come through. */
  function Since(codec: Codec, before: set<Loaded>, e: Entry): set<Loaded> {
    if e.Edited? then {Load(codec, Some(File(e.content, true)))}
    else if e.result.Accepted? then {Value(e.enabled)}
    else before + {Value(e.enabled)}
  }

  function MayLoad(codec: Codec, first: set<Loaded>, log: seq<Entry>): set<Loaded> {
    if log == [] then first else Since(codec, MayLoad(codec, first, log[..|log| - 1]), log[|log| - 1])
  }

  lemma MayLoadOneMore(codec: Codec, first: set<Loaded>, log: seq<Entry>, e: Entry)
    ensures MayLoad(codec, first, log + [e]) == Since(codec, MayLoad(codec, first, log), e)
  {
    assert (log + [e])[..|log|] == log;
  }

  class AutoUseControl {
    const controller: AutoUseController
    const store: ConfigStore
    const usable: bool
    var view: AutoUsePreference
    var invalidStore: bool

    ghost predicate Valid()
      reads this, controller, store
    {
      && store.Valid() && store.codec.Lawful() && controller.Valid()
      && controller as object != store && controller as object != this && store as object != this
      && (usable || invalidStore)
      && view.enabled == controller.enabled
      && (view.persistence == Saved ==> !invalidStore)
    }

    /** What a start may find, after a crash of the process or of the machine. */
    ghost function Loads(): set<Loaded>
      reads this, store
    {
      set f | f in store.durable :: Load(store.codec, f)
    }

    /** Starts from what the store holds; an invalid store disables. */
    constructor (controller: AutoUseController, store: ConfigStore, usable: bool)
      requires store.Valid() && store.codec.Lawful() && controller.Valid() && controller as object != store
      modifies controller
      ensures Valid() && this.controller == controller && this.store == store && this.usable == usable
      ensures var loaded := if usable then store.Read() else Invalid;
              && view.enabled == (loaded == Missing || loaded == Value(true))
              && view.persistence == (if loaded.Value? then Saved else if loaded.Missing? then Default else Error)
              && invalidStore == loaded.Invalid?
    {
      this.controller, this.store, this.usable := controller, store, usable;
      var loaded := if usable then store.Read() else Invalid;
      var enabled := loaded == Missing || loaded == Value(true);
      view := AutoUsePreference(enabled, if loaded.Value? then Saved else if loaded.Missing? then Default else Error);
      invalidStore := loaded.Invalid?;
      new;
      if enabled { controller.Enable(); } else { controller.Disable(); }
    }

    /** The attempt to save: nothing is written to a store that is or turns out invalid. */
    method Save(enabled: bool, fate: Fate) returns (written: WriteResult)
      requires store.Valid() && store.codec.Lawful() && store as object != this && (usable || invalidStore)
      modifies this`invalidStore, store
      ensures store.Valid()
      ensures invalidStore <==> old(invalidStore) || old(store.Read()).Invalid?
      ensures invalidStore ==>
                written == Failed && store.config == old(store.config) && store.durable == old(store.durable)
      ensures !invalidStore ==>
                (written == Written <==> fate.Unharmed?) && (written == Died <==> fate.DiesBefore?)
      ensures written == Written ==> Loads() == {Value(enabled)}
      ensures Loads() <= old(Loads()) + {Value(enabled)}
      ensures store.Read() == old(store.Read()) || store.Read() == Value(enabled)
    {
      if !usable || store.Read().Invalid? { invalidStore := true; }
      written := Failed;
      if !invalidStore { written := store.Write(enabled, fate); }
    }

    /** Sets the preference. Accepted exactly if the store is usable and valid and the write goes
        through: then every later start loads it. Refused or crashed: what a
        start may load is as before, or the value asked for. Found invalid: nothing is written. */
    method Set(enabled: bool, fate: Fate) returns (result: SetResult)
      requires Valid()
      modifies this, controller, store
      ensures result != Crashed ==> Valid()
      ensures store.Valid() && store.codec.Lawful()
      ensures result.Accepted? ==>
                && result.preference == view == AutoUsePreference(enabled, Saved)
                && controller.enabled == enabled && Loads() == {Value(enabled)}
      ensures result.Accepted? <==> usable && !old(invalidStore) && !old(store.Read()).Invalid? && fate.Unharmed?
      ensures result.Crashed? <==> usable && !old(invalidStore) && !old(store.Read()).Invalid? && fate.DiesBefore?
      ensures result.Refused? ==> view == AutoUsePreference(false, Error) && !controller.enabled
      ensures Loads() <= old(Loads()) + {Value(enabled)}
      ensures store.Read() == old(store.Read()) || store.Read() == Value(enabled)
      ensures old(invalidStore) || old(store.Read()).Invalid? ==>
                && !result.Accepted? && invalidStore
                && store.config == old(store.config) && store.durable == old(store.durable)
      ensures old(invalidStore) ==> invalidStore
    {
      if !enabled { controller.Disable(); }
      var written := Save(enabled, fate);
      if written == Died { return Crashed; }
      if written == Failed {
        controller.Disable();
        view := AutoUsePreference(false, Error);
        return Refused;
      }
      if enabled { controller.Enable(); }
      view := AutoUsePreference(enabled, Saved);
      result := Accepted(view);
    }

    /** Any sequence of sets and foreign edits, with failures anywhere, until the process dies:
        the next start loads the last accepted value or edit, or a value asked for since. */
    method Live(events: seq<Event>) returns (log: seq<Entry>)
      requires Valid()
      modifies this, controller, store
      ensures store.Valid() && Loads() <= MayLoad(store.codec, old(Loads()), log)
      ensures |log| <= |events| && forall i | 0 <= i < |log| :: Logs(events[i], log[i])
      ensures (forall i | 0 <= i < |log| :: log[i].Asked? ==> !log[i].result.Crashed?) ==> Valid() && |log| == |events|
    {
      log := [];
      for i := 0 to |events|
        invariant Valid() && |log| == i
        invariant forall j | 0 <= j < i :: Logs(events[j], log[j])
        invariant Loads() <= MayLoad(store.codec, old(Loads()), log)
      {
        var entry := Happen(events[i]);
        MayLoadOneMore(store.codec, old(Loads()), log, entry);
        log := log + [entry];
        if entry.Asked? && entry.result.Crashed? { return; }
      }
    }

    method Happen(event: Event) returns (entry: Entry)
      requires Valid()
      modifies this, controller, store
      ensures Logs(event, entry) && store.Valid()
      ensures !(entry.Asked? && entry.result.Crashed?) ==> Valid()
      ensures entry.Edited? ==> Loads() == {Load(store.codec, Some(File(entry.content, true)))}
      ensures entry.Asked? && entry.result.Accepted? ==> Loads() == {Value(entry.enabled)}
      ensures entry.Asked? ==> Loads() <= old(Loads()) + {Value(entry.enabled)}
    {
      match event
      case Ask(enabled, fate) =>
        var result := Set(enabled, fate);
        entry := Asked(enabled, result);
      case Edit(content) =>
        store.Tamper(content);
        entry := Edited(content);
    }
  }

  predicate Logs(event: Event, entry: Entry) {
    match event
    case Ask(enabled, _) => entry.Asked? && entry.enabled == enabled
    case Edit(content) => entry == Edited(content)
  }
}
