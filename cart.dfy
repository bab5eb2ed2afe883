/** The cart store: an ordered list of lines keyed by the service `id`,
    persisted under `raffine_cart` and pushed to the profile while signed in. */
module Cart {
  import opened Domain
  import opened Seqs
  import Auth

  /** Some line has identity `id`. */
  predicate HasLine(lines: seq<CartLine>, id: Option<string>) {
    exists i :: 0 <= i < |lines| && lines[i].Id() == id
  }

  /** At most one line per identity. */
  predicate UniqueIds(lines: seq<CartLine>) {
    forall i, j :: 0 <= i < j < |lines| ==> lines[i].Id() != lines[j].Id()
  }

  /** Every line has a quantity of at least one. */
  predicate PositiveQuantities(lines: seq<CartLine>) {
    forall i :: 0 <= i < |lines| ==> lines[i].quantity >= 1
  }

  /** `prev.find(item => item.id === id)`, as a test. */
  function FindLine(lines: seq<CartLine>, id: Option<string>): (b: bool)
    ensures b <==> HasLine(lines, id)
  {
    if lines == [] then false
    else if lines[0].Id() == id then true
    else
      var rest := FindLine(lines[1..], id);
      assert forall i :: 1 <= i < |lines| ==> lines[i] == lines[1..][i - 1];
      rest
  }

  /** The `map` that adds one to the quantity of the lines with identity `id`. */
  function Increment(lines: seq<CartLine>, id: Option<string>): (r: seq<CartLine>)
    ensures |r| == |lines|
    ensures forall i :: 0 <= i < |lines| ==>
              r[i] == if lines[i].Id() == id then lines[i].(quantity := lines[i].quantity + 1) else lines[i]
  {
    if lines == [] then []
    else
      var head := if lines[0].Id() == id then lines[0].(quantity := lines[0].quantity + 1) else lines[0];
      [head] + Increment(lines[1..], id)
  }

  /** `addToCart(service)`: one more of an existing line, or a new line of one at the end. */
  function AddLine(lines: seq<CartLine>, s: Service): (r: seq<CartLine>)
    ensures HasLine(lines, s.id) ==> |r| == |lines|
    ensures HasLine(lines, s.id) ==> forall i :: 0 <= i < |lines| ==>
              if lines[i].Id() == s.id then r[i] == lines[i].(quantity := lines[i].quantity + 1) else r[i] == lines[i]
    ensures !HasLine(lines, s.id) ==> r == lines + [CartLine(s, 1)]
  {
    if FindLine(lines, s.id) then Increment(lines, s.id) else lines + [CartLine(s, 1)]
  }

  function IdIsNot(id: Option<string>): CartLine -> bool {
    (l: CartLine) => l.Id() != id
  }

  /** `removeFromCart(id)`: exactly the other lines, in their order. */
  function RemoveLines(lines: seq<CartLine>, id: Option<string>): (r: seq<CartLine>)
    ensures !HasLine(r, id)
    ensures IsSubsequence(r, lines)
    ensures forall l :: multiset(r)[l] == if l.Id() != id then multiset(lines)[l] else 0
    ensures !HasLine(lines, id) ==> r == lines
  {
    if HasLine(lines, id) then Keep(lines, IdIsNot(id))
    else
      KeepAll(lines, IdIsNot(id));
      Keep(lines, IdIsNot(id))
  }

  /** The `map` that sets the quantity of the lines with identity `id` to `q`. */
  function SetQuantity(lines: seq<CartLine>, id: Option<string>, q: int): (r: seq<CartLine>)
    ensures |r| == |lines|
    ensures forall i :: 0 <= i < |lines| ==>
              r[i] == if lines[i].Id() == id then lines[i].(quantity := q) else lines[i]
  {
    if lines == [] then []
    else
      var head := if lines[0].Id() == id then lines[0].(quantity := q) else lines[0];
      [head] + SetQuantity(lines[1..], id, q)
  }

  /** `updateQuantity(id, q)`: a quantity of zero or less removes; otherwise it
      only rewrites the matching lines and never creates one. */
  function WithQuantity(lines: seq<CartLine>, id: Option<string>, q: int): (r: seq<CartLine>)
    ensures q <= 0 ==> r == RemoveLines(lines, id)
    ensures q > 0 ==> |r| == |lines|
    ensures q > 0 ==> forall i :: 0 <= i < |lines| ==>
              r[i].service == lines[i].service
              && r[i].quantity == if lines[i].Id() == id then q else lines[i].quantity
  {
    if q <= 0 then RemoveLines(lines, id) else SetQuantity(lines, id, q)
  }

  /** `cartItems.reduce((sum, item) => sum + item.quantity, 0)`. */
  function CartCount(lines: seq<CartLine>): (r: int)
    ensures PositiveQuantities(lines) ==> forall i :: 0 <= i < |lines| ==> lines[i].quantity <= r
  {
    if lines == [] then 0 else CartCount(lines[..|lines| - 1]) + lines[|lines| - 1].quantity
  }

  /** The cart count grows by the quantity of an appended line. */
  lemma CountAppend(lines: seq<CartLine>, l: CartLine)
    ensures CartCount(lines + [l]) == CartCount(lines) + l.quantity
  {
    assert (lines + [l])[..|lines|] == lines;
  }

  /** The cart count with the first line split off. */
  lemma {:induction false} CountCons(l: CartLine, lines: seq<CartLine>)
    ensures CartCount([l] + lines) == l.quantity + CartCount(lines)
    decreases |lines|
  {
    if lines == [] {
      assert [l] + lines == [l];
      assert [l][..0] == [];
    } else {
      var init := lines[..|lines| - 1];
      var last := lines[|lines| - 1];
      assert lines == init + [last];
      assert [l] + lines == ([l] + init) + [last];
      CountAppend([l] + init, last);
      CountAppend(init, last);
      CountCons(l, init);
    }
  }

  /** With one line per identity, adding a service adds exactly one to the count. */
  lemma {:induction false} CountAfterAdd(lines: seq<CartLine>, s: Service)
    requires UniqueIds(lines)
    ensures CartCount(AddLine(lines, s)) == CartCount(lines) + 1
  {
    if HasLine(lines, s.id) {
      var k :| 0 <= k < |lines| && lines[k].Id() == s.id;
      IncrementCount(lines, s.id, k);
    } else {
      CountAppend(lines, CartLine(s, 1));
    }
  }

  /** Incrementing the one line with identity `id`, at index `k`, adds one to the count. */
  lemma {:induction false} IncrementCount(lines: seq<CartLine>, id: Option<string>, k: nat)
    requires UniqueIds(lines) && k < |lines| && lines[k].Id() == id
    ensures CartCount(Increment(lines, id)) == CartCount(lines) + 1
    decreases |lines|
  {
    var r := Increment(lines, id);
    var rest := Increment(lines[1..], id);
    assert lines == [lines[0]] + lines[1..];
    assert r == [r[0]] + rest;
    CountCons(lines[0], lines[1..]);
    CountCons(r[0], rest);
    UniqueTail(lines);
    if k == 0 {
      IncrementNothing(lines[1..], id);
    } else {
      assert lines[1..][k - 1] == lines[k];
      IncrementCount(lines[1..], id, k - 1);
    }
  }

  /** The tail of a cart with one line per identity has one line per identity,
      and none of them is the head's. */
  lemma UniqueTail(lines: seq<CartLine>)
    requires UniqueIds(lines) && lines != []
    ensures UniqueIds(lines[1..])
    ensures forall i :: 0 <= i < |lines[1..]| ==> lines[1..][i].Id() != lines[0].Id()
  {
    forall i | 0 <= i < |lines[1..]| ensures lines[1..][i].Id() != lines[0].Id() {
      assert lines[1..][i] == lines[i + 1];
    }
  }

  /** Incrementing an identity no line has changes nothing. */
  lemma IncrementNothing(lines: seq<CartLine>, id: Option<string>)
    requires forall i :: 0 <= i < |lines| ==> lines[i].Id() != id
    ensures Increment(lines, id) == lines
  {
  }

  /** Adding keeps one line per identity. */
  lemma AddKeepsUnique(lines: seq<CartLine>, s: Service)
    requires UniqueIds(lines)
    ensures UniqueIds(AddLine(lines, s))
  {
    var r := AddLine(lines, s);
    if HasLine(lines, s.id) {
      assert forall i :: 0 <= i < |r| ==> r[i].Id() == lines[i].Id();
    } else {
      assert forall i :: 0 <= i < |lines| ==> r[i] == lines[i];
      assert r[|lines|].Id() == s.id;
    }
  }

  /** Adding keeps every quantity at least one. */
  lemma AddKeepsPositive(lines: seq<CartLine>, s: Service)
    requires PositiveQuantities(lines)
    ensures PositiveQuantities(AddLine(lines, s))
  {
  }

  /** Removing keeps one line per identity and every quantity positive. */
  lemma RemoveKeepsInvariants(lines: seq<CartLine>, id: Option<string>)
    ensures UniqueIds(lines) ==> UniqueIds(RemoveLines(lines, id))
    ensures PositiveQuantities(lines) ==> PositiveQuantities(RemoveLines(lines, id))
  {
    var r := RemoveLines(lines, id);
    SubsequenceOrder(r, lines);
    SubsequenceMembers(r, lines);
  }

  /** Setting a positive quantity keeps both invariants. */
  lemma UpdateKeepsInvariants(lines: seq<CartLine>, id: Option<string>, q: int)
    ensures UniqueIds(lines) ==> UniqueIds(WithQuantity(lines, id, q))
    ensures PositiveQuantities(lines) ==> PositiveQuantities(WithQuantity(lines, id, q))
  {
    if q <= 0 {
      RemoveKeepsInvariants(lines, id);
    } else {
      var r := WithQuantity(lines, id, q);
      assert forall i :: 0 <= i < |r| ==> r[i].Id() == lines[i].Id();
    }
  }

  /** Adding the same new service twice yields one line of quantity two at the end. */
  lemma AddTwice(lines: seq<CartLine>, s: Service)
    requires !HasLine(lines, s.id)
    ensures AddLine(AddLine(lines, s), s) == lines + [CartLine(s, 2)]
  {
    var once := lines + [CartLine(s, 1)];
    assert once[|lines|].Id() == s.id;
    var twice := AddLine(once, s);
    assert forall i :: 0 <= i < |lines| ==> lines[i].Id() != s.id;
    assert twice == lines + [CartLine(s, 2)];
  }

  /** The backend payload `{ service: _id || id, quantity }`, one per line. */
  function Payload(lines: seq<CartLine>): (r: seq<PayloadLine>)
    ensures |r| == |lines|
    ensures forall i :: 0 <= i < |lines| ==> r[i] == PayloadLine(BackendRef(lines[i].service), lines[i].quantity)
  {
    if lines == [] then [] else [PayloadLine(BackendRef(lines[0].service), lines[0].quantity)] + Payload(lines[1..])
  }

  /** The profile's cart as local lines: `{ ...service, quantity, id: service._id }`. */
  function FormatRemote(remote: seq<RemoteLine>): (r: seq<CartLine>)
    ensures |r| == |remote|
    ensures forall i :: 0 <= i < |remote| ==>
              r[i] == CartLine(remote[i].service.(id := remote[i].service.mongoId), remote[i].quantity)
  {
    if remote == [] then []
    else [CartLine(remote[0].service.(id := remote[0].service.mongoId), remote[0].quantity)] + FormatRemote(remote[1..])
  }

  /** The login rule: a non-empty remote cart replaces the local one; otherwise the local one stays. */
  function SyncedCart(local: seq<CartLine>, remote: Option<seq<RemoteLine>>): (r: seq<CartLine>)
    ensures remote.Some? && |remote.value| > 0 ==> |r| == |remote.value|
    ensures remote.Some? && |remote.value| > 0 ==> forall i :: 0 <= i < |r| ==>
              r[i].Id() == remote.value[i].service.mongoId && r[i].quantity == remote.value[i].quantity
    ensures remote.Some? && |remote.value| > 0 ==> r == FormatRemote(remote.value)
    ensures remote.None? || |remote.value| == 0 ==> r == local
  {
    if remote.Some? && |remote.value| > 0 then FormatRemote(remote.value) else local
  }

  /** Pushing a freshly synced cart sends back the remote ids and quantities unchanged. */
  lemma SyncThenPushRoundTrip(remote: seq<RemoteLine>)
    ensures Payload(FormatRemote(remote))
         == seq(|remote|, i requires 0 <= i < |remote| => PayloadLine(remote[i].service.mongoId, remote[i].quantity))
  {
    var p := Payload(FormatRemote(remote));
    forall i | 0 <= i < |remote|
      ensures p[i] == PayloadLine(remote[i].service.mongoId, remote[i].quantity)
    {
      var f := FormatRemote(remote)[i];
      assert f.service.id == remote[i].service.mongoId;
    }
  }

  /** `JSON.parse` of the stored cart: only an encoded cart parses. */
  function ParseCart(v: Stored): (r: Option<seq<CartLine>>)
    ensures r.Some? <==> v.Json? && v.doc.CartDoc?
    ensures r.Some? ==> v == Json(CartDoc(r.value))
  {
    if v.Json? && v.doc.CartDoc? then Some(v.doc.lines) else None
  }

  class CartStore {
    var items: seq<CartLine>
    /** The snapshots sent to the profile endpoint, oldest first. */
    var pushed: seq<seq<PayloadLine>>
    const storage: LocalStorage
    const session: Auth.Session

    constructor (storage: LocalStorage, session: Auth.Session)
      ensures this.storage == storage && this.session == session
      ensures items == [] && pushed == []
    {
      this.storage := storage;
      this.session := session;
      items := [];
      pushed := [];
    }

    /** The mount effect: a stored cart is loaded; an unparseable one is removed
        and the cart stays as it was; an absent or empty one changes nothing. */
    method Load()
      modifies this, storage
      ensures pushed == old(pushed)
      ensures CartKey !in old(storage.entries) || !Truthy(old(storage.entries[CartKey])) ==>
                items == old(items) && storage.entries == old(storage.entries)
      ensures CartKey in old(storage.entries) && ParseCart(old(storage.entries[CartKey])).Some? ==>
                items == ParseCart(old(storage.entries[CartKey])).value && storage.entries == old(storage.entries)
      ensures CartKey in old(storage.entries) && Truthy(old(storage.entries[CartKey]))
              && ParseCart(old(storage.entries[CartKey])).None? ==>
                items == old(items) && storage.entries == old(storage.entries) - {CartKey}
    {
      var saved := storage.GetItem(CartKey);
      if saved.Some? && Truthy(saved.value) {
        match ParseCart(saved.value)
        case Some(lines) =>
          items := lines;
        case None =>
          storage.RemoveItem(CartKey);
      }
    }

    /** Mounting the provider: the load effect, then the write-through effect
        with whatever the load left, so the stored cart always ends up encoded. */
    method Mount()
      modifies this, storage
      ensures CartKey in old(storage.entries) && ParseCart(old(storage.entries[CartKey])).Some? ==>
                items == ParseCart(old(storage.entries[CartKey])).value
      ensures CartKey !in old(storage.entries) || ParseCart(old(storage.entries[CartKey])).None? ==>
                items == old(items)
      ensures storage.entries == old(storage.entries)[CartKey := Json(CartDoc(items))]
      ensures pushed == old(pushed) + if session.isAuthenticated then [Payload(items)] else []
    {
      Load();
      WriteThrough();
    }

    /** The write-through effect, as one atomic step: persist the cart and,
        while signed in, send its payload to the profile. */
    method WriteThrough()
      modifies this`pushed, storage
      ensures storage.entries == old(storage.entries)[CartKey := Json(CartDoc(items))]
      ensures pushed == old(pushed) + if session.isAuthenticated then [Payload(items)] else []
    {
      storage.SetItem(CartKey, Json(CartDoc(items)));
      if session.isAuthenticated {
        pushed := pushed + [Payload(items)];
      }
    }

    method AddToCart(s: Service)
      modifies this, storage
      ensures items == AddLine(old(items), s)
      ensures storage.entries == old(storage.entries)[CartKey := Json(CartDoc(items))]
      ensures pushed == old(pushed) + if session.isAuthenticated then [Payload(items)] else []
    {
      items := AddLine(items, s);
      WriteThrough();
    }

    method RemoveFromCart(id: Option<string>)
      modifies this, storage
      ensures items == RemoveLines(old(items), id)
      ensures storage.entries == old(storage.entries)[CartKey := Json(CartDoc(items))]
      ensures pushed == old(pushed) + if session.isAuthenticated then [Payload(items)] else []
    {
      items := RemoveLines(items, id);
      WriteThrough();
    }

    method UpdateQuantity(id: Option<string>, q: int)
      modifies this, storage
      ensures items == WithQuantity(old(items), id, q)
      ensures storage.entries == old(storage.entries)[CartKey := Json(CartDoc(items))]
      ensures pushed == old(pushed) + if session.isAuthenticated then [Payload(items)] else []
    {
      if q <= 0 {
        RemoveFromCart(id);
        return;
      }
      items := SetQuantity(items, id, q);
      WriteThrough();
    }

    method ClearCart()
      modifies this, storage
      ensures items == []
      ensures storage.entries == old(storage.entries)[CartKey := Json(CartDoc([]))]
      ensures pushed == old(pushed) + if session.isAuthenticated then [Payload([])] else []
    {
      items := [];
      WriteThrough();
    }

    function GetCartCount(): (n: int)
      reads this
      ensures n == CartCount(items)
      ensures items == [] ==> n == 0
      ensures PositiveQuantities(items) ==> n >= |items|
    {
      CountAtLeastLength(items);
      CartCount(items)
    }

    /** The sync effect once the profile read completes, while signed in:
        a non-empty remote cart replaces the local one and is written through. */
    method SyncOnLogin(profile: Result<Profile>)
      modifies this, storage
      ensures !session.isAuthenticated || profile.Err? ==>
                items == old(items) && pushed == old(pushed) && storage.entries == old(storage.entries)
      ensures session.isAuthenticated && profile.Ok? ==> items == SyncedCart(old(items), profile.value.cart)
      ensures session.isAuthenticated && profile.Ok? && profile.value.cart.Some? && |profile.value.cart.value| > 0 ==>
                storage.entries == old(storage.entries)[CartKey := Json(CartDoc(items))]
                && pushed == old(pushed) + [Payload(items)]
      ensures session.isAuthenticated && profile.Ok? && (profile.value.cart.None? || |profile.value.cart.value| == 0) ==>
                pushed == old(pushed) && storage.entries == old(storage.entries)
    {
      if session.isAuthenticated && profile.Ok? {
        var cart := profile.value.cart;
        if cart.Some? && |cart.value| > 0 {
          items := FormatRemote(cart.value);
          WriteThrough();
        }
      }
    }

    /** A change of the session runs both effects that list it: the write-through
        effect writes and, once signed in, pushes the current cart at once, and the
        profile sync then applies the profile read. */
    method OnSessionChange(profile: Result<Profile>)
      modifies this, storage
      ensures items == if session.isAuthenticated && profile.Ok? then SyncedCart(old(items), profile.value.cart) else old(items)
      ensures storage.entries == old(storage.entries)[CartKey := Json(CartDoc(items))]
      ensures session.isAuthenticated && profile.Ok? && profile.value.cart.Some? && |profile.value.cart.value| > 0 ==>
                pushed == old(pushed) + [Payload(old(items)), Payload(items)]
      ensures !(session.isAuthenticated && profile.Ok? && profile.value.cart.Some? && |profile.value.cart.value| > 0) ==>
                pushed == old(pushed) + if session.isAuthenticated then [Payload(old(items))] else []
    {
      WriteThrough();
      SyncOnLogin(profile);
    }
  }

  /** With positive quantities the count is at least the number of lines. */
  lemma {:induction false} CountAtLeastLength(lines: seq<CartLine>)
    ensures PositiveQuantities(lines) ==> CartCount(lines) >= |lines|
  {
    if lines != [] {
      CountAtLeastLength(lines[..|lines| - 1]);
    }
  }
}
