/** The favourites store: an ordered list of services keyed by `id`,
    persisted under `raffine_favorites` and pushed to the profile while signed in. */
module Favorites {
  import opened Domain
  import opened Seqs
  import Auth

  /** No two favourites share an identity. */
  predicate UniqueIds(favs: seq<Service>) {
    forall i, j :: 0 <= i < j < |favs| ==> favs[i].id != favs[j].id
  }

  /** `favorites.some(item => item.id === id)`. */
  function IsFavorite(favs: seq<Service>, id: Option<string>): (b: bool)
    ensures b <==> exists i :: 0 <= i < |favs| && favs[i].id == id
  {
    if favs == [] then false
    else if favs[0].id == id then true
    else
      var rest := IsFavorite(favs[1..], id);
      assert forall i :: 1 <= i < |favs| ==> favs[i] == favs[1..][i - 1];
      rest
  }

  function IdIsNot(id: Option<string>): Service -> bool {
    (s: Service) => s.id != id
  }

  /** `toggleFavorite(service)`: a favourite with the same identity is dropped
      (every one of them), otherwise the service is appended. */
  function Toggle(favs: seq<Service>, s: Service): (r: seq<Service>)
    ensures IsFavorite(favs, s.id) ==> IsSubsequence(r, favs) && !IsFavorite(r, s.id)
    ensures IsFavorite(favs, s.id) ==> forall x :: multiset(r)[x] == if x.id != s.id then multiset(favs)[x] else 0
    ensures !IsFavorite(favs, s.id) ==> r == favs + [s]
  {
    if IsFavorite(favs, s.id) then Keep(favs, IdIsNot(s.id)) else favs + [s]
  }

  /** A toggle flips the favourite status of the toggled identity. */
  lemma ToggleFlips(favs: seq<Service>, s: Service)
    ensures IsFavorite(Toggle(favs, s), s.id) == !IsFavorite(favs, s.id)
  {
    var r := Toggle(favs, s);
    if !IsFavorite(favs, s.id) {
      assert r[|favs|] == s;
    }
  }

  /** A toggle leaves the favourite status of every other identity alone. */
  lemma ToggleLeavesOthers(favs: seq<Service>, s: Service, id: Option<string>)
    requires id != s.id
    ensures IsFavorite(Toggle(favs, s), id) == IsFavorite(favs, id)
  {
    var r := Toggle(favs, s);
    if IsFavorite(favs, s.id) {
      if IsFavorite(favs, id) {
        var i :| 0 <= i < |favs| && favs[i].id == id;
        assert favs[i] in multiset(favs);
        assert favs[i] in multiset(r);
        assert favs[i] in r;
      }
      SubsequenceMembers(r, favs);
    } else {
      if IsFavorite(r, id) {
        var i :| 0 <= i < |r| && r[i].id == id;
        assert i < |favs| && r[i] == favs[i];
      }
      if IsFavorite(favs, id) {
        var i :| 0 <= i < |favs| && favs[i].id == id;
        assert r[i] == favs[i];
      }
    }
  }

  /** Toggling a new service twice gives the list back unchanged. */
  lemma ToggleTwiceFromAbsent(favs: seq<Service>, s: Service)
    requires !IsFavorite(favs, s.id)
    ensures Toggle(Toggle(favs, s), s) == favs
  {
    var once := favs + [s];
    assert once[|favs|] == s;
    KeepAppend(favs, [s], IdIsNot(s.id));
    KeepAll(favs, IdIsNot(s.id));
    KeepCons(s, [], IdIsNot(s.id));
    assert [s] + [] == [s];
  }

  /** Toggling a present service twice moves it (and drops its duplicates) to the end. */
  lemma ToggleTwiceFromPresent(favs: seq<Service>, s: Service)
    requires IsFavorite(favs, s.id)
    ensures Toggle(Toggle(favs, s), s) == Keep(favs, IdIsNot(s.id)) + [s]
  {
    ToggleFlips(favs, s);
  }

  /** Toggling keeps the identities distinct. */
  lemma ToggleKeepsUnique(favs: seq<Service>, s: Service)
    requires UniqueIds(favs)
    ensures UniqueIds(Toggle(favs, s))
  {
    var r := Toggle(favs, s);
    if IsFavorite(favs, s.id) {
      SubsequenceOrder(r, favs);
    } else {
      assert forall i :: 0 <= i < |favs| ==> r[i] == favs[i];
      assert r[|favs|] == s;
    }
  }

  /** The backend payload: each favourite's `_id || id`. */
  function Payload(favs: seq<Service>): (r: seq<Option<string>>)
    ensures |r| == |favs|
    ensures forall i :: 0 <= i < |favs| ==> r[i] == BackendRef(favs[i])
  {
    if favs == [] then [] else [BackendRef(favs[0])] + Payload(favs[1..])
  }

  /** The profile's favourites as local ones: `{ ...service, id: service._id }`. */
  function FormatRemote(remote: seq<Service>): (r: seq<Service>)
    ensures |r| == |remote|
    ensures forall i :: 0 <= i < |remote| ==> r[i] == remote[i].(id := remote[i].mongoId)
  {
    if remote == [] then [] else [remote[0].(id := remote[0].mongoId)] + FormatRemote(remote[1..])
  }

  /** The login rule: a non-empty remote list replaces the local one; otherwise the local one stays. */
  function SyncedFavorites(local: seq<Service>, remote: Option<seq<Service>>): (r: seq<Service>)
    ensures remote.Some? && |remote.value| > 0 ==> |r| == |remote.value|
    ensures remote.Some? && |remote.value| > 0 ==> forall i :: 0 <= i < |r| ==>
              r[i].id == remote.value[i].mongoId && r[i].mongoId == remote.value[i].mongoId
    ensures remote.Some? && |remote.value| > 0 ==> r == FormatRemote(remote.value)
    ensures remote.None? || |remote.value| == 0 ==> r == local
  {
    if remote.Some? && |remote.value| > 0 then FormatRemote(remote.value) else local
  }

  /** Pushing freshly synced favourites sends back the remote ids unchanged. */
  lemma SyncThenPushRoundTrip(remote: seq<Service>)
    ensures Payload(FormatRemote(remote)) == seq(|remote|, i requires 0 <= i < |remote| => remote[i].mongoId)
  {
    var p := Payload(FormatRemote(remote));
    forall i | 0 <= i < |remote| ensures p[i] == remote[i].mongoId {
      var f := FormatRemote(remote)[i];
      assert f.id == remote[i].mongoId && f.mongoId == remote[i].mongoId;
    }
  }

  /** `JSON.parse` of the stored favourites: only an encoded list parses. */
  function ParseFavorites(v: Stored): (r: Option<seq<Service>>)
    ensures r.Some? <==> v.Json? && v.doc.FavoritesDoc?
    ensures r.Some? ==> v == Json(FavoritesDoc(r.value))
  {
    if v.Json? && v.doc.FavoritesDoc? then Some(v.doc.services) else None
  }

  class FavoritesStore {
    var favorites: seq<Service>
    /** The id lists sent to the profile endpoint, oldest first. */
    var pushed: seq<seq<Option<string>>>
    const storage: LocalStorage
    const session: Auth.Session

    constructor (storage: LocalStorage, session: Auth.Session)
      ensures this.storage == storage && this.session == session
      ensures favorites == [] && pushed == []
    {
      this.storage := storage;
      this.session := session;
      favorites := [];
      pushed := [];
    }

    /** The load effect: stored favourites are loaded; unparseable ones are
        removed and the list stays as it was; absent or empty ones change nothing. */
    method Load()
      modifies this, storage
      ensures pushed == old(pushed)
      ensures FavoritesKey !in old(storage.entries) || !Truthy(old(storage.entries[FavoritesKey])) ==>
                favorites == old(favorites) && storage.entries == old(storage.entries)
      ensures FavoritesKey in old(storage.entries) && ParseFavorites(old(storage.entries[FavoritesKey])).Some? ==>
                favorites == ParseFavorites(old(storage.entries[FavoritesKey])).value
                && storage.entries == old(storage.entries)
      ensures FavoritesKey in old(storage.entries) && Truthy(old(storage.entries[FavoritesKey]))
              && ParseFavorites(old(storage.entries[FavoritesKey])).None? ==>
                favorites == old(favorites) && storage.entries == old(storage.entries) - {FavoritesKey}
    {
      var saved := storage.GetItem(FavoritesKey);
      if saved.Some? && Truthy(saved.value) {
        match ParseFavorites(saved.value)
        case Some(favs) =>
          favorites := favs;
        case None =>
          storage.RemoveItem(FavoritesKey);
      }
    }

    /** The write-through effect, as one atomic step: persist the list and,
        while signed in, send its ids to the profile. */
    method WriteThrough()
      modifies this`pushed, storage
      ensures storage.entries == old(storage.entries)[FavoritesKey := Json(FavoritesDoc(favorites))]
      ensures pushed == old(pushed) + if session.isAuthenticated then [Payload(favorites)] else []
    {
      storage.SetItem(FavoritesKey, Json(FavoritesDoc(favorites)));
      if session.isAuthenticated {
        pushed := pushed + [Payload(favorites)];
      }
    }

    /** Mounting the provider: the load effect, then the write-through effect. */
    method Mount()
      modifies this, storage
      ensures FavoritesKey in old(storage.entries) && ParseFavorites(old(storage.entries[FavoritesKey])).Some? ==>
                favorites == ParseFavorites(old(storage.entries[FavoritesKey])).value
      ensures FavoritesKey !in old(storage.entries) || ParseFavorites(old(storage.entries[FavoritesKey])).None? ==>
                favorites == old(favorites)
      ensures storage.entries == old(storage.entries)[FavoritesKey := Json(FavoritesDoc(favorites))]
      ensures pushed == old(pushed) + if session.isAuthenticated then [Payload(favorites)] else []
    {
      Load();
      WriteThrough();
    }

    method ToggleFavorite(s: Service)
      modifies this, storage
      ensures favorites == Toggle(old(favorites), s)
      ensures storage.entries == old(storage.entries)[FavoritesKey := Json(FavoritesDoc(favorites))]
      ensures pushed == old(pushed) + if session.isAuthenticated then [Payload(favorites)] else []
    {
      favorites := Toggle(favorites, s);
      WriteThrough();
    }

    function IsFavoriteId(id: Option<string>): (b: bool)
      reads this
      ensures b <==> exists i :: 0 <= i < |favorites| && favorites[i].id == id
    {
      IsFavorite(favorites, id)
    }

    /** The sync effect once the profile read completes, while signed in:
        a non-empty remote list replaces the local one and is written through. */
    method SyncOnLogin(profile: Result<Profile>)
      modifies this, storage
      ensures !session.isAuthenticated || profile.Err? ==>
                favorites == old(favorites) && pushed == old(pushed) && storage.entries == old(storage.entries)
      ensures session.isAuthenticated && profile.Ok? ==> favorites == SyncedFavorites(old(favorites), profile.value.favorites)
      ensures session.isAuthenticated && profile.Ok? && profile.value.favorites.Some? && |profile.value.favorites.value| > 0 ==>
                storage.entries == old(storage.entries)[FavoritesKey := Json(FavoritesDoc(favorites))]
                && pushed == old(pushed) + [Payload(favorites)]
      ensures session.isAuthenticated && profile.Ok? && (profile.value.favorites.None? || |profile.value.favorites.value| == 0) ==>
                pushed == old(pushed) && storage.entries == old(storage.entries)
    {
      if session.isAuthenticated && profile.Ok? {
        var remote := profile.value.favorites;
        if remote.Some? && |remote.value| > 0 {
          favorites := FormatRemote(remote.value);
          WriteThrough();
        }
      }
    }

    /** A change of the session runs both effects that list it: the write-through
        effect writes and, once signed in, pushes the current favourites at once, and
        the profile sync then applies the profile read. */
    method OnSessionChange(profile: Result<Profile>)
      modifies this, storage
      ensures favorites == if session.isAuthenticated && profile.Ok? then SyncedFavorites(old(favorites), profile.value.favorites) else old(favorites)
      ensures storage.entries == old(storage.entries)[FavoritesKey := Json(FavoritesDoc(favorites))]
      ensures session.isAuthenticated && profile.Ok? && profile.value.favorites.Some? && |profile.value.favorites.value| > 0 ==>
                pushed == old(pushed) + [Payload(old(favorites)), Payload(favorites)]
      ensures !(session.isAuthenticated && profile.Ok? && profile.value.favorites.Some? && |profile.value.favorites.value| > 0) ==>
                pushed == old(pushed) + if session.isAuthenticated then [Payload(old(favorites))] else []
    {
      WriteThrough();
      SyncOnLogin(profile);
    }
  }
}
