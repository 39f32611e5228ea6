/** The persistent state store: what `chrome.storage.local` holds under the
    worker's key, and `loadState`, which spreads the stored record over
    DEFAULT_STATE. */
module Store {
  import opened ProxyData

  /** One property of the stored record: present (with its value, which may
      itself be null) or absent. */
  datatype Field<+T> = Absent | Present(value: T)

  /** The record found under the storage key. Only the four state fields are
      modelled; any other property the spread would copy is not. */
  datatype StoredBlob = StoredBlob(
    profiles: Field<seq<Profile>>,
    activeProfileId: Field<Option<string>>,
    connectionStatus: Field<ConnectionStatus>,
    lastPing: Field<Option<int>>)

  /** Outcome of `chrome.storage.local.get`: the value under the key
      (None when nothing is stored) or a thrown error. */
  datatype StorageRead = ReadOk(stored: Option<StoredBlob>) | ReadThrew

  function Override<T>(f: Field<T>, default: T): T
  {
    match f
    case Absent => default
    case Present(v) => v
  }

  /** `loadState`: the defaults when the read throws or finds nothing,
      otherwise `{...DEFAULT_STATE, ...stored}`. */
  function LoadedState(read: StorageRead): (s: State)
    ensures read.ReadThrew? || read.stored.None? ==> s == DefaultState
    ensures read.ReadOk? && read.stored.Some? ==>
      var b := read.stored.value;
      (b.profiles.Present? ==> s.profiles == b.profiles.value) &&
      (b.profiles.Absent? ==> s.profiles == DefaultState.profiles) &&
      (b.activeProfileId.Present? ==> s.activeProfileId == b.activeProfileId.value) &&
      (b.activeProfileId.Absent? ==> s.activeProfileId == DefaultState.activeProfileId) &&
      (b.connectionStatus.Present? ==> s.connectionStatus == b.connectionStatus.value) &&
      (b.connectionStatus.Absent? ==> s.connectionStatus == DefaultState.connectionStatus) &&
      (b.lastPing.Present? ==> s.lastPing == b.lastPing.value) &&
      (b.lastPing.Absent? ==> s.lastPing == DefaultState.lastPing)
  {
    match read
    case ReadThrew => DefaultState
    case ReadOk(None) => DefaultState
    case ReadOk(Some(b)) =>
      State(
        Override(b.profiles, DefaultState.profiles),
        Override(b.activeProfileId, DefaultState.activeProfileId),
        Override(b.connectionStatus, DefaultState.connectionStatus),
        Override(b.lastPing, DefaultState.lastPing))
  }

  /** What `saveState` writes: the whole state, every field present. */
  function Snapshot(s: State): (b: StoredBlob)
    ensures b.profiles.Present? && b.activeProfileId.Present? &&
            b.connectionStatus.Present? && b.lastPing.Present?
  {
    StoredBlob(Present(s.profiles), Present(s.activeProfileId),
               Present(s.connectionStatus), Present(s.lastPing))
  }

  /** Read after write: loading what `saveState` stored gives back exactly
      the state that was saved. */
  lemma LoadAfterSave(s: State)
    ensures LoadedState(ReadOk(Some(Snapshot(s)))) == s
  {
  }

  /** Loading and saving again changes nothing: a loaded state, once stored,
      loads as itself. */
  lemma LoadSaveLoad(read: StorageRead)
    ensures LoadedState(ReadOk(Some(Snapshot(LoadedState(read))))) == LoadedState(read)
  {
    LoadAfterSave(LoadedState(read));
  }

  /** An empty stored record loads as the defaults, like no record at all. */
  lemma EmptyRecordIsDefault()
    ensures LoadedState(ReadOk(Some(StoredBlob(Absent, Absent, Absent, Absent)))) == DefaultState
  {
  }
}
