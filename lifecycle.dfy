/** The profile lifecycle as transitions of the loaded state: what
    `saveProfile`, `deleteProfile` and `handleProxyToggle` do to the state
    object between `loadState` and `saveState`, which reply they send, whether
    they save at all, and what they ask of the browser's proxy setting.
    The outcome of each `chrome.proxy.settings` call is a parameter. */
module Lifecycle {
  import opened ProxyData
  import opened Profiles
  import Port
  import ProxyConfig

  /** What a handler did to the browser's proxy setting. */
  datatype ProxyEffect = Untouched | Cleared | Applied(config: ProxyConfig.Config)

  /** One handler run: the state object at its end, the reply, whether
      `saveState` was called, and the proxy call that succeeded. */
  datatype Step = Step(state: State, resp: Response, persisted: bool, proxy: ProxyEffect)

  /** `!profile.name || !profile.host || !profile.port` rejects. */
  predicate HasRequiredFields(p: Profile)
  {
    p.name != "" && p.host != "" && p.port != ""
  }

  /** Both checks of `saveProfile`. The port rule already rejects an empty
      port, so the required-port test never decides on its own. */
  predicate PassesValidation(p: Profile): (ok: bool)
    ensures ok <==> p.name != "" && p.host != "" && Port.PortValid(p.port)
  {
    HasRequiredFields(p) && Port.PortValid(p.port)
  }

  /** The connection fields are those of `s`. */
  predicate SameConnection(t: State, s: State)
  {
    t.activeProfileId == s.activeProfileId &&
    t.connectionStatus == s.connectionStatus &&
    t.lastPing == s.lastPing
  }

  /** The connection fields are reset: nothing active, disconnected, no ping. */
  predicate Inactive(t: State)
  {
    t.activeProfileId == None && t.connectionStatus == Disconnected && t.lastPing == None
  }

  function Unchanged(s: State, error: string): Step
  {
    Step(s, Failed(error), false, Untouched)
  }

  /** `saveProfile(draft)` on the loaded state `s`; `freshId` is
      `Date.now().toString()`. */
  function Save(s: State, draft: Profile, freshId: string): (r: Step)
    ensures r.proxy == Untouched
    ensures !HasRequiredFields(draft) ==> r == Unchanged(s, MsgRequired)
    ensures HasRequiredFields(draft) && !Port.PortValid(draft.port) ==> r == Unchanged(s, MsgInvalidPort)
    ensures PassesValidation(draft) ==> r.persisted && SameConnection(r.state, s)
    ensures PassesValidation(draft) && HasId(s.profiles, draft.id) ==>
      var i := FindIndex(s.profiles, draft.id);
      r.resp == Saved(draft.id) &&
      |r.state.profiles| == |s.profiles| && r.state.profiles[i] == draft &&
      forall j :: 0 <= j < |s.profiles| && j != i ==> r.state.profiles[j] == s.profiles[j]
    ensures PassesValidation(draft) && !HasId(s.profiles, draft.id) ==>
      r.resp == Saved(Some(freshId)) &&
      |r.state.profiles| == |s.profiles| + 1 &&
      r.state.profiles[..|s.profiles|] == s.profiles &&
      r.state.profiles[|s.profiles|] == draft.(id := Some(freshId))
  {
    if !HasRequiredFields(draft) then Unchanged(s, MsgRequired)
    else if !Port.PortValid(draft.port) then Unchanged(s, MsgInvalidPort)
    else
      var index := FindIndex(s.profiles, draft.id);
      if index != -1 then
        Step(s.(profiles := s.profiles[index := draft]), Saved(draft.id), true, Untouched)
      else
        var saved := draft.(id := Some(freshId));
        Step(s.(profiles := s.profiles + [saved]), Saved(saved.id), true, Untouched)
  }

  /** `deleteProfile(profileId)` on the loaded state `s`; `clearOk` is the
      outcome of `chrome.proxy.settings.clear`, which is only attempted when
      the profile is active and whose failure is only logged. */
  function Delete(s: State, profileId: string, clearOk: bool): (r: Step)
    ensures r.resp == Deleted && r.persisted
    ensures r.state.profiles == RemoveId(s.profiles, profileId)
    ensures !HasId(r.state.profiles, Some(profileId))
    ensures s.activeProfileId == Some(profileId) ==> Inactive(r.state)
    ensures s.activeProfileId != Some(profileId) ==> SameConnection(r.state, s)
    ensures r.proxy == if s.activeProfileId == Some(profileId) && clearOk then Cleared else Untouched
  {
    var wasActive := s.activeProfileId == Some(profileId);
    var t := if wasActive then s.(activeProfileId := None, connectionStatus := Disconnected, lastPing := None)
             else s;
    Step(t.(profiles := RemoveId(s.profiles, profileId)), Deleted, true,
         if wasActive && clearOk then Cleared else Untouched)
  }

  /** `handleProxyToggle(profileId)` on the loaded state `s`; `clearOk` and
      `applyOk` are the outcomes of `chrome.proxy.settings.clear` and of
      `chrome.proxy.settings.set`, each used only on its own branch. */
  function Toggle(s: State, profileId: string, clearOk: bool, applyOk: bool): (r: Step)
    ensures s.activeProfileId == Some(profileId) && clearOk ==>
      r.resp == Status(Disabled) && r.persisted && r.proxy == Cleared &&
      Inactive(r.state) && r.state.profiles == s.profiles
    ensures s.activeProfileId == Some(profileId) && !clearOk ==>
      r == Unchanged(s, MsgDisconnectFailed)
    ensures s.activeProfileId != Some(profileId) && !HasId(s.profiles, Some(profileId)) ==>
      r == Unchanged(s, MsgProfileNotFound)
    ensures s.activeProfileId != Some(profileId) && HasId(s.profiles, Some(profileId)) && !applyOk ==>
      r == Unchanged(s, MsgConnectFailed)
    ensures s.activeProfileId != Some(profileId) && HasId(s.profiles, Some(profileId)) && applyOk ==>
      var p := s.profiles[FindIndex(s.profiles, Some(profileId))];
      r.resp == Status(Enabled) && r.persisted && r.proxy == Applied(ProxyConfig.ConfigFor(p)) &&
      r.state.activeProfileId == Some(profileId) && r.state.connectionStatus == Connecting &&
      r.state.profiles == s.profiles && r.state.lastPing == s.lastPing
  {
    if s.activeProfileId == Some(profileId) then
      if !clearOk then Unchanged(s, MsgDisconnectFailed)
      else Step(s.(activeProfileId := None, connectionStatus := Disconnected, lastPing := None),
                Status(Disabled), true, Cleared)
    else
      match Find(s.profiles, profileId)
      case None => Unchanged(s, MsgProfileNotFound)
      case Some(p) =>
        if !applyOk then Unchanged(s, MsgConnectFailed)
        else Step(s.(activeProfileId := Some(profileId), connectionStatus := Connecting),
                  Status(Enabled), true, Applied(ProxyConfig.ConfigFor(p)))
  }

  /** The invariants the handlers keep: an active id names a stored profile,
      nothing is active exactly when disconnected, and every stored profile
      passed validation (so its port is in 1..65535). */
  predicate Consistent(s: State)
  {
    (s.activeProfileId.Some? ==> HasId(s.profiles, s.activeProfileId)) &&
    (s.activeProfileId.None? <==> s.connectionStatus == Disconnected) &&
    (forall i :: 0 <= i < |s.profiles| ==> PassesValidation(s.profiles[i]))
  }

  lemma DefaultConsistent()
    ensures Consistent(DefaultState)
  {
  }

  lemma SavePreservesConsistent(s: State, draft: Profile, freshId: string)
    requires Consistent(s)
    ensures Consistent(Save(s, draft, freshId).state)
  {
    var t := Save(s, draft, freshId).state;
    if PassesValidation(draft) && s.activeProfileId.Some? {
      var k :| 0 <= k < |s.profiles| && s.profiles[k].id == s.activeProfileId;
      if HasId(s.profiles, draft.id) {
        var i := FindIndex(s.profiles, draft.id);
        assert t.profiles[k].id == s.activeProfileId;
      } else {
        assert t.profiles[k] == s.profiles[k];
      }
    }
    if PassesValidation(draft) && !HasId(s.profiles, draft.id) {
      forall i | 0 <= i < |t.profiles| ensures PassesValidation(t.profiles[i]) {
        if i < |s.profiles| { assert t.profiles[i] == t.profiles[..|s.profiles|][i]; }
      }
    }
  }

  lemma DeletePreservesConsistent(s: State, profileId: string, clearOk: bool)
    requires Consistent(s)
    ensures Consistent(Delete(s, profileId, clearOk).state)
  {
    var t := Delete(s, profileId, clearOk).state;
    if s.activeProfileId.Some? && s.activeProfileId != Some(profileId) {
      RemoveIdKeepsOthers(s.profiles, profileId, s.activeProfileId.value);
    }
    forall i | 0 <= i < |t.profiles| ensures PassesValidation(t.profiles[i]) {
      assert t.profiles[i] in s.profiles;
    }
  }

  lemma TogglePreservesConsistent(s: State, profileId: string, clearOk: bool, applyOk: bool)
    requires Consistent(s)
    ensures Consistent(Toggle(s, profileId, clearOk, applyOk).state)
  {
  }

  /** Nothing in these handlers ever records a probe: from a state with no
      ping and a status that is neither connected nor error, every handler
      leads to such a state again, so `connected`, `error` and a ping can
      only come from outside these handlers. */
  predicate NeverProbed(s: State)
  {
    s.lastPing == None && (s.connectionStatus == Disconnected || s.connectionStatus == Connecting)
  }

  lemma HandlersNeverProbe(s: State, draft: Profile, freshId: string, profileId: string, clearOk: bool, applyOk: bool)
    requires NeverProbed(s)
    ensures NeverProbed(Save(s, draft, freshId).state)
    ensures NeverProbed(Delete(s, profileId, clearOk).state)
    ensures NeverProbed(Toggle(s, profileId, clearOk, applyOk).state)
  {
  }

  /** Switching from one active profile to another keeps the old ping:
      the new profile is `connecting` with the previous `lastPing`. */
  lemma SwitchKeepsStalePing()
    ensures var a := Profile(Some("1"), "A", "a.example", "80", "", "");
            var b := Profile(Some("2"), "B", "b.example", "81", "", "");
            var s := State([a, b], Some("1"), Connected, Some(42));
            var r := Toggle(s, "2", true, true);
            r.resp == Status(Enabled) && r.state.connectionStatus == Connecting && r.state.lastPing == Some(42)
  {
    var a := Profile(Some("1"), "A", "a.example", "80", "", "");
    var b := Profile(Some("2"), "B", "b.example", "81", "", "");
    assert [a, b][1].id == Some("2");
  }

  /** Deleting twice: the second delete of the same id, whatever its
      proxy-clear outcome, returns success and leaves the state exactly as
      the first left it. */
  lemma DeleteIdempotent(s: State, profileId: string, clear1: bool, clear2: bool)
    ensures var r1 := Delete(s, profileId, clear1);
            var r2 := Delete(r1.state, profileId, clear2);
            r2.resp == Deleted && r2.state == r1.state && r2.proxy == Untouched
  {
    var r1 := Delete(s, profileId, clear1);
    RemoveIdIdempotent(s.profiles, profileId);
    assert r1.state.activeProfileId != Some(profileId);
  }

  /** Toggling the profile that was just activated deactivates it again. */
  lemma ToggleTwiceDeactivates(s: State, profileId: string)
    requires s.activeProfileId != Some(profileId) && HasId(s.profiles, Some(profileId))
    ensures var r1 := Toggle(s, profileId, true, true);
            var r2 := Toggle(r1.state, profileId, true, true);
            r1.resp == Status(Enabled) && r2.resp == Status(Disabled) &&
            Inactive(r2.state) && r2.state.profiles == s.profiles
  {
  }

  /** No two profiles share an id. */
  predicate UniqueIds(ps: seq<Profile>)
  {
    forall i, j :: 0 <= i < j < |ps| ==> ps[i].id != ps[j].id
  }

  /** Saving keeps ids unique provided the supplied fresh id is not already
      in use; the worker itself does not ensure that. */
  lemma SavePreservesUniqueIds(s: State, draft: Profile, freshId: string)
    requires UniqueIds(s.profiles) && !HasId(s.profiles, Some(freshId))
    ensures UniqueIds(Save(s, draft, freshId).state.profiles)
  {
    var t := Save(s, draft, freshId).state.profiles;
    if PassesValidation(draft) {
      if HasId(s.profiles, draft.id) {
        var k := FindIndex(s.profiles, draft.id);
        forall i, j | 0 <= i < j < |t| ensures t[i].id != t[j].id {
          assert t[i].id == s.profiles[i].id && t[j].id == s.profiles[j].id;
        }
      } else {
        forall i, j | 0 <= i < j < |t| ensures t[i].id != t[j].id {
          assert t[i] == t[..|s.profiles|][i];
          if j < |s.profiles| { assert t[j] == t[..|s.profiles|][j]; }
        }
      }
    }
  }

  lemma DeletePreservesUniqueIds(s: State, profileId: string, clearOk: bool)
    requires UniqueIds(s.profiles)
    ensures UniqueIds(Delete(s, profileId, clearOk).state.profiles)
  {
    RemoveIdUnique(s.profiles, profileId);
  }

  lemma {:induction false} RemoveIdUnique(ps: seq<Profile>, id: string)
    requires UniqueIds(ps)
    ensures UniqueIds(RemoveId(ps, id))
  {
    if ps != [] {
      RemoveIdUnique(ps[1..], id);
      if ps[0].id != Some(id) {
        var rest := RemoveId(ps[1..], id);
        var r := [ps[0]] + rest;
        forall i, j | 0 <= i < j < |r| ensures r[i].id != r[j].id {
          if i == 0 {
            assert r[j] in rest;
            assert r[j] in ps[1..];
            var k :| 0 <= k < |ps[1..]| && ps[1..][k] == r[j];
            assert ps[k + 1] == r[j];
          } else {
            assert r[i] == rest[i - 1] && r[j] == rest[j - 1];
          }
        }
      }
    }
  }

  /** Create, then edit: saving a new draft appends it under the fresh id;
      saving it again under that id with another host replaces that entry
      and adds none. */
  lemma SaveThenUpdate(s: State, draft: Profile, freshId: string, newHost: string)
    requires PassesValidation(draft) && newHost != []
    requires !HasId(s.profiles, draft.id) && !HasId(s.profiles, Some(freshId))
    ensures var r1 := Save(s, draft, freshId);
            var edited := draft.(id := Some(freshId), host := newHost);
            var r2 := Save(r1.state, edited, "unused");
            r1.resp == Saved(Some(freshId)) && r2.resp == Saved(Some(freshId)) &&
            |r2.state.profiles| == |s.profiles| + 1 &&
            r2.state.profiles[..|s.profiles|] == s.profiles &&
            r2.state.profiles[|s.profiles|] == edited
  {
    var r1 := Save(s, draft, freshId);
    var ps := r1.state.profiles;
    var n := |s.profiles|;
    assert ps[n].id == Some(freshId);
    var r2 := Save(r1.state, draft.(id := Some(freshId), host := newHost), "unused");
    assert r2.state.profiles[..n] == ps[..n];
  }
}
