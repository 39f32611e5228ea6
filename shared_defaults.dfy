/** `loadState` as written shares one array with DEFAULT_STATE: the spread
    `{...DEFAULT_STATE}` copies the reference to `DEFAULT_STATE.profiles`,
    so when the loaded object takes its profile list from the defaults,
    `saveProfile`'s in-place `state.profiles[index] = profile` and
    `state.profiles.push(profile)` write into DEFAULT_STATE itself. This
    module models that sharing; the rest of the model uses
    `Store.LoadedState`, whose defaults never change. */
module SharedDefaults {
  import opened ProxyData
  import opened Store
  import Lifecycle
  import Port

  /** A loaded state object and whether its `profiles` is the very array
      `DEFAULT_STATE.profiles`. */
  datatype Loaded = Loaded(state: State, sharesDefaults: bool)

  /** `loadState` with `defaults` the current contents of
      `DEFAULT_STATE.profiles`. */
  function LoadAsWritten(read: StorageRead, defaults: seq<Profile>): (r: Loaded)
    ensures r.sharesDefaults <==> !(read.ReadOk? && read.stored.Some? && read.stored.value.profiles.Present?)
    ensures r.sharesDefaults ==> r.state.profiles == defaults
  {
    var base := DefaultState.(profiles := defaults);
    match read
    case ReadThrew => Loaded(base, true)
    case ReadOk(None) => Loaded(base, true)
    case ReadOk(Some(b)) =>
      Loaded(State(Override(b.profiles, defaults),
                   Override(b.activeProfileId, base.activeProfileId),
                   Override(b.connectionStatus, base.connectionStatus),
                   Override(b.lastPing, base.lastPing)),
             b.profiles.Absent?)
  }

  /** The contents of `DEFAULT_STATE.profiles` after one `saveProfile`: a
      draft that passes validation is written into it whenever the loaded
      list was that array. */
  function DefaultsAfterSave(read: StorageRead, defaults: seq<Profile>, draft: Profile, freshId: string): (r: seq<Profile>)
    ensures r != defaults ==> LoadAsWritten(read, defaults).sharesDefaults && Lifecycle.PassesValidation(draft)
    ensures |defaults| <= |r| <= |defaults| + 1
    ensures |r| == |defaults| + 1 ==> r[..|defaults|] == defaults && r[|defaults|] == draft.(id := Some(freshId))
  {
    var loaded := LoadAsWritten(read, defaults);
    var step := Lifecycle.Save(loaded.state, draft, freshId);
    if loaded.sharesDefaults && step.persisted then step.state.profiles else defaults
  }

  /** As long as the shared array is still empty, loading as written and the
      corrected `Store.LoadedState` agree. */
  lemma AgreesWhileDefaultsEmpty(read: StorageRead)
    ensures LoadAsWritten(read, []).state == LoadedState(read)
  {
  }

  /** The leak: with storage failing, saving one new profile puts it into
      DEFAULT_STATE, and the next failed read loads it back, where the
      defaults (`Store.LoadedState`) would give an empty list. */
  lemma DefaultsLeakAfterFailedRead()
    ensures var draft := Profile(None, "A", "1.2.3.4", "8080", "", "");
            var leaked := DefaultsAfterSave(ReadThrew, [], draft, "1");
            leaked == [draft.(id := Some("1"))] &&
            LoadAsWritten(ReadThrew, leaked).state.profiles == [draft.(id := Some("1"))] &&
            LoadedState(ReadThrew).profiles == []
  {
    var draft := Profile(None, "A", "1.2.3.4", "8080", "", "");
    Port.PortAccepts8080();
    assert Lifecycle.PassesValidation(draft);
  }
}
