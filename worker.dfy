/** The background worker's handlers as they run: each loads the state from
    storage, changes the loaded object field by field, and saves it.
    The worker object holds what outlives a handler: the record in
    `chrome.storage.local` and the browser's proxy setting. Every host call
    takes its outcome (succeeded or failed) as a parameter. */
module Worker {
  import opened ProxyData
  import opened Profiles
  import opened Store
  import opened Lifecycle
  import ProxyConfig
  import Port

  /** The browser's proxy setting as far as the worker changes it. */
  datatype ProxySetting = NotSet | FixedServers(config: ProxyConfig.Config)

  /** The setting after a handler's proxy call. */
  function AfterEffect(setting: ProxySetting, effect: ProxyEffect): ProxySetting
  {
    match effect
    case Untouched => setting
    case Cleared => NotSet
    case Applied(c) => FixedServers(c)
  }

  /** Storage after a handler: the new state when it saved and the write
      succeeded, the old record otherwise. */
  function AfterSave(stored: Option<StoredBlob>, step: Step, writeOk: bool): Option<StoredBlob>
  {
    if step.persisted && writeOk then Some(Snapshot(step.state)) else stored
  }

  class BackgroundWorker {
    /** The value under the storage key, None when nothing is stored. */
    var storage: Option<StoredBlob>
    var proxySetting: ProxySetting

    constructor (stored: Option<StoredBlob>, setting: ProxySetting)
      ensures storage == stored && proxySetting == setting
    {
      storage := stored;
      proxySetting := setting;
    }

    /** What `loadState` returns when the read succeeds (`readOk`) or throws. */
    function Loaded(readOk: bool): State
      reads this
    {
      LoadedState(if readOk then ReadOk(storage) else ReadThrew)
    }

    method LoadState(readOk: bool) returns (state: State)
      ensures state == Loaded(readOk)
      ensures !readOk || storage.None? ==> state == DefaultState
    {
      if !readOk {
        return DefaultState;
      }
      state := LoadedState(ReadOk(storage));
    }

    /** `saveState`: on a successful write the record is the new state; on a
        failed one it is left as it was. */
    method SaveState(state: State, writeOk: bool) returns (ok: bool)
      modifies this`storage
      ensures ok == writeOk
      ensures storage == if writeOk then Some(Snapshot(state)) else old(storage)
      ensures writeOk ==> Loaded(true) == state
    {
      ok := writeOk;
      if writeOk {
        storage := Some(Snapshot(state));
        LoadAfterSave(state);
      }
    }

    /** `applyProxy`: builds the fixed-servers configuration and sets it. */
    method ApplyProxy(profile: Profile, setOk: bool) returns (ok: bool)
      modifies this`proxySetting
      ensures ok == setOk
      ensures proxySetting == if setOk then FixedServers(ProxyConfig.ConfigFor(profile)) else old(proxySetting)
    {
      var host := ProxyConfig.ProxyHost(profile.host, profile.username, profile.password);
      var config := ProxyConfig.Config("fixed_servers", "http", host, Port.ParseInt(profile.port), ["<local>"]);
      ok := setOk;
      if setOk {
        proxySetting := FixedServers(config);
      }
    }

    /** `chrome.proxy.settings.clear`. */
    method ClearProxy(clearOk: bool) returns (ok: bool)
      modifies this`proxySetting
      ensures ok == clearOk
      ensures proxySetting == if clearOk then NotSet else old(proxySetting)
    {
      ok := clearOk;
      if clearOk {
        proxySetting := NotSet;
      }
    }

    /** TOGGLE_PROXY. */
    method HandleProxyToggle(profileId: string, readOk: bool, clearOk: bool, applyOk: bool, writeOk: bool)
      returns (resp: Response)
      modifies this
      ensures var step := Toggle(old(Loaded(readOk)), profileId, clearOk, applyOk);
              resp == step.resp &&
              storage == AfterSave(old(storage), step, writeOk) &&
              proxySetting == AfterEffect(old(proxySetting), step.proxy) &&
              (step.persisted && writeOk ==> Loaded(true) == step.state)
    {
      var state := LoadState(readOk);
      if state.activeProfileId == Some(profileId) {
        var cleared := ClearProxy(clearOk);
        if !cleared {
          return Failed(MsgDisconnectFailed);
        }
        state := state.(activeProfileId := None);
        state := state.(connectionStatus := Disconnected);
        state := state.(lastPing := None);
        var saved := SaveState(state, writeOk);
        return Status(Disabled);
      }
      var profile := Find(state.profiles, profileId);
      if profile.None? {
        return Failed(MsgProfileNotFound);
      }
      var applied := ApplyProxy(profile.value, applyOk);
      if !applied {
        return Failed(MsgConnectFailed);
      }
      state := state.(activeProfileId := Some(profileId));
      state := state.(connectionStatus := Connecting);
      var saved := SaveState(state, writeOk);
      return Status(Enabled);
    }

    /** SAVE_PROFILE; `freshId` is `Date.now().toString()`. */
    method SaveProfile(profile: Profile, freshId: string, readOk: bool, writeOk: bool)
      returns (resp: Response)
      modifies this`storage
      ensures var step := Save(old(Loaded(readOk)), profile, freshId);
              resp == step.resp &&
              storage == AfterSave(old(storage), step, writeOk) &&
              (step.persisted && writeOk ==> Loaded(true) == step.state)
    {
      var state := LoadState(readOk);
      if profile.name == "" || profile.host == "" || profile.port == "" {
        return Failed(MsgRequired);
      }
      var port := Port.ParseInt(profile.port);
      if port.None? || port.value <= 0 || port.value > 65535 {
        return Failed(MsgInvalidPort);
      }
      var draft := profile;
      var index := FindIndex(state.profiles, draft.id);
      if index != -1 {
        state := state.(profiles := state.profiles[index := draft]);
      } else {
        draft := draft.(id := Some(freshId));
        state := state.(profiles := state.profiles + [draft]);
      }
      var saved := SaveState(state, writeOk);
      return Saved(draft.id);
    }

    /** DELETE_PROFILE. */
    method DeleteProfile(profileId: string, readOk: bool, clearOk: bool, writeOk: bool)
      returns (resp: Response)
      modifies this
      ensures var step := Delete(old(Loaded(readOk)), profileId, clearOk);
              resp == step.resp &&
              storage == AfterSave(old(storage), step, writeOk) &&
              proxySetting == AfterEffect(old(proxySetting), step.proxy) &&
              (writeOk ==> Loaded(true) == step.state)
    {
      var state := LoadState(readOk);
      if state.activeProfileId == Some(profileId) {
        var cleared := ClearProxy(clearOk);
        state := state.(activeProfileId := None);
        state := state.(connectionStatus := Disconnected);
        state := state.(lastPing := None);
      }
      state := state.(profiles := RemoveId(state.profiles, profileId));
      var saved := SaveState(state, writeOk);
      return Deleted;
    }

    /** GET_PROXY_DATA. */
    method GetProxyData(readOk: bool) returns (state: State)
      ensures state == Loaded(readOk)
    {
      state := LoadState(readOk);
    }
  }

  /** DELETE_PROFILE sent twice for one id, with storage working: both reply
      success, and the second leaves the stored record as the first did. */
  method DeleteTwice(w: BackgroundWorker, profileId: string, clear1: bool, clear2: bool)
    returns (first: Response, second: Response, afterFirst: Option<StoredBlob>)
    modifies w
    ensures first == Deleted && second == Deleted
    ensures afterFirst == Some(Snapshot(Delete(old(w.Loaded(true)), profileId, clear1).state))
    ensures w.storage == afterFirst
  {
    first := w.DeleteProfile(profileId, true, clear1, true);
    afterFirst := w.storage;
    ghost var s1 := Delete(old(w.Loaded(true)), profileId, clear1).state;
    assert w.Loaded(true) == s1;
    DeleteIdempotent(old(w.Loaded(true)), profileId, clear1, clear2);
    second := w.DeleteProfile(profileId, true, clear2, true);
  }

  /** A successful save is visible to the next GET_PROXY_DATA: a new valid
      profile is the last entry under the fresh id. */
  method SaveThenGet(w: BackgroundWorker, profile: Profile, freshId: string)
    returns (resp: Response, data: State)
    requires Lifecycle.PassesValidation(profile)
    modifies w
    ensures resp.Saved?
    ensures var before := old(w.Loaded(true)).profiles;
            !HasId(before, profile.id) ==>
              resp == Saved(Some(freshId)) && |data.profiles| == |before| + 1 &&
              data.profiles[|before|] == profile.(id := Some(freshId))
  {
    resp := w.SaveProfile(profile, freshId, true, true);
    data := w.GetProxyData(true);
  }
}
