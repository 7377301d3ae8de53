/** The profile page: the user's name, e-mail and address list, the form for
    a new address, and the handlers that add and remove addresses after the
    server has answered. */
module ProfilePage {
  import opened JsSemantics

  /** A value compared with `!==`: absent (`undefined`), a number (the
      fallback `Date.now()` id) or a string (a database id). Values of
      different kinds are never strictly equal. */
  datatype Key = Undefined | Num(n: int) | Str(s: string)

  /** One address of `userData.addresses`. `id` is the field the remove
      handler compares; `objectId` is `_id`, the field the list is keyed by
      and that the remove button passes. The fallback address has an `id` and
      no `_id`; an address the server sends is taken to have an `_id`, and
      whether it also has an `id` depends on the server's response, which is
      not part of this model. */
  datatype Address = Address(id: Key, objectId: Key, street: string, city: string, state: string, zip: string)

  /** `newAddress`, the form's four fields. */
  datatype AddressForm = AddressForm(street: string, city: string, state: string, zip: string)

  const EmptyForm := AddressForm("", "", "", "")

  datatype AddressField = Street | City | State | Zip

  /** The guard of `handleAddAddress`: all four fields truthy, that is
      non-empty. */
  predicate Complete(form: AddressForm)
  {
    form.street != "" && form.city != "" && form.state != "" && form.zip != ""
  }

  /** The address appended when the server's answer has no `address`:
      `{ id: Date.now(), ...newAddress }`, with the clock reading `now`. */
  function FallbackAddress(form: AddressForm, now: int): (a: Address)
    ensures a.id == Num(now) && a.objectId == Undefined
    ensures AddressForm(a.street, a.city, a.state, a.zip) == form
  {
    Address(Num(now), Undefined, form.street, form.city, form.state, form.zip)
  }

  /** The list after removing `id`: the addresses whose `id` is not
      strictly equal to it. */
  function WithoutId(addresses: seq<Address>, id: Key): seq<Address>
  {
    Filter(addresses, (a: Address) => a.id != id)
  }

  /** An address survives exactly when its `id` differs from the argument. */
  lemma WithoutIdMembership(addresses: seq<Address>, id: Key, a: Address)
    ensures a in WithoutId(addresses, id) <==> a in addresses && a.id != id
  {
    FilterMembership(addresses, (x: Address) => x.id != id, a);
  }

  /** Removal works piece by piece, so the survivors keep their order. */
  lemma WithoutIdKeepsOrder(front: seq<Address>, back: seq<Address>, id: Key)
    ensures WithoutId(front + back, id) == WithoutId(front, id) + WithoutId(back, id)
  {
    FilterConcat(front, back, (a: Address) => a.id != id);
  }

  /** The remove button passes `_id`, a string, while the handler compares
      `id`. If the addresses the server sends carry an `_id` and no `id`,
      removing any of them leaves the local list exactly as it was. */
  lemma RemoveByObjectIdKeepsServerAddresses(addresses: seq<Address>, s: string)
    requires forall i :: 0 <= i < |addresses| ==> addresses[i].id == Undefined
    ensures WithoutId(addresses, Str(s)) == addresses
  {
    FilterAll(addresses, (a: Address) => a.id != Str(s));
  }

  /** And a fallback address, whose `_id` is absent, is removed together
      with every other address that has no `id`. */
  lemma RemoveFallbackAddress(addresses: seq<Address>, form: AddressForm, now: int)
    ensures WithoutId(addresses + [FallbackAddress(form, now)], FallbackAddress(form, now).objectId)
         == WithoutId(addresses, Undefined) + [FallbackAddress(form, now)]
  {
    var a := FallbackAddress(form, now);
    var keep := (x: Address) => x.id != Undefined;
    FilterConcat(addresses, [a], keep);
    assert Filter([a], keep) == [a] + Filter([], keep);
  }

  /** The user record of the profile answer; `None` is an absent field. */
  datatype ProfileData = ProfileData(name: Option<string>, email: Option<string>, addresses: Option<seq<Address>>)

  /** The page's state: `loading`, `userData`, `showAddressForm` and
      `newAddress`. */
  class ProfileView {
    var loading: bool
    var name: string
    var email: string
    var addresses: seq<Address>
    var showAddressForm: bool
    var newAddress: AddressForm

    constructor ()
      ensures loading && name == "" && email == "" && addresses == []
      ensures !showAddressForm && newAddress == EmptyForm
    {
      loading, name, email, addresses := true, "", "", [];
      showAddressForm, newAddress := false, EmptyForm;
    }

    /** The profile fetch on mount. `response` is `Succeeded(user)` with the
        answer's `user` field, or `Rejected` when the request fails. */
    method FetchUserProfile(hasToken: bool, response: ApiCall<Option<ProfileData>>)
      modifies this
      ensures !loading
      ensures showAddressForm == old(showAddressForm) && newAddress == old(newAddress)
      ensures !hasToken || (response.Succeeded? && response.value.None?) ==>
        name == old(name) && email == old(email) && addresses == old(addresses)
      ensures hasToken && response.Rejected? ==>
        name == "User" && email == "user@example.com" && addresses == []
      ensures hasToken && response.Succeeded? && response.value.Some? ==>
        var user := response.value.value;
        (name == if user.name.Some? && user.name.value != "" then user.name.value else "User")
        && (email == if user.email.Some? then user.email.value else "")
        && (addresses == if user.addresses.Some? then user.addresses.value else [])
    {
      if !hasToken {
        loading := false;
        return;
      }
      if response.Rejected? {
        name, email, addresses := "User", "user@example.com", [];
      } else if response.value.Some? {
        var user := response.value.value;
        name := if user.name.Some? && user.name.value != "" then user.name.value else "User";
        email := if user.email.Some? then user.email.value else "";
        addresses := if user.addresses.Some? then user.addresses.value else [];
      }
      loading := false;
    }

    /** The toggle button. */
    method ToggleAddressForm()
      modifies this
      ensures showAddressForm == !old(showAddressForm)
      ensures name == old(name) && email == old(email) && loading == old(loading)
      ensures addresses == old(addresses) && newAddress == old(newAddress)
    {
      showAddressForm := !showAddressForm;
    }

    /** The cancel button. */
    method CancelAddressForm()
      modifies this
      ensures !showAddressForm
      ensures addresses == old(addresses) && newAddress == old(newAddress)
      ensures name == old(name) && email == old(email) && loading == old(loading)
    {
      showAddressForm := false;
    }

    /** The `onChange` of one form input: that field, and only it, changes. */
    method SetField(field: AddressField, value: string)
      modifies this
      ensures newAddress == match field
        case Street => old(newAddress).(street := value)
        case City => old(newAddress).(city := value)
        case State => old(newAddress).(state := value)
        case Zip => old(newAddress).(zip := value)
      ensures addresses == old(addresses) && showAddressForm == old(showAddressForm)
      ensures name == old(name) && email == old(email) && loading == old(loading)
    {
      match field
      case Street => newAddress := newAddress.(street := value);
      case City => newAddress := newAddress.(city := value);
      case State => newAddress := newAddress.(state := value);
      case Zip => newAddress := newAddress.(zip := value);
    }

    /** `handleAddAddress`. `response` is the POST's outcome:
        `Succeeded(Some(a))` when the answer carries the stored address `a`,
        `Succeeded(None)` when it does not, `Rejected` when the request
        fails. `now` is `Date.now()`. */
    method AddAddress(hasToken: bool, response: ApiCall<Option<Address>>, now: int)
      modifies this
      ensures name == old(name) && email == old(email) && loading == old(loading)
      ensures !Complete(old(newAddress)) || !hasToken || response.Rejected? ==>
        addresses == old(addresses) && newAddress == old(newAddress) && showAddressForm == old(showAddressForm)
      ensures Complete(old(newAddress)) && hasToken && response.Succeeded? ==>
        |addresses| == |old(addresses)| + 1
        && addresses[..|old(addresses)|] == old(addresses)
        && addresses[|old(addresses)|]
           == (if response.value.Some? then response.value.value else FallbackAddress(old(newAddress), now))
        && newAddress == EmptyForm && !showAddressForm
    {
      if !Complete(newAddress) || !hasToken || response.Rejected? {
        return;
      }
      var added := if response.value.Some? then response.value.value else FallbackAddress(newAddress, now);
      addresses := addresses + [added];
      newAddress := EmptyForm;
      showAddressForm := false;
    }

    /** `handleRemoveAddress(id)`. `response` is the DELETE's outcome. */
    method RemoveAddress(id: Key, hasToken: bool, response: ApiCall<()>)
      modifies this
      ensures name == old(name) && email == old(email) && loading == old(loading)
      ensures newAddress == old(newAddress) && showAddressForm == old(showAddressForm)
      ensures !hasToken || response.Rejected? ==> addresses == old(addresses)
      ensures hasToken && response.Succeeded? ==> addresses == WithoutId(old(addresses), id)
      ensures forall a :: a in addresses <==> a in old(addresses) && (hasToken && response.Succeeded? ==> a.id != id)
    {
      if !hasToken || response.Rejected? {
        return;
      }
      forall a ensures a in WithoutId(addresses, id) <==> a in addresses && a.id != id {
        WithoutIdMembership(addresses, id, a);
      }
      addresses := WithoutId(addresses, id);
    }
  }
}
