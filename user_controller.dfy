/** The profile handlers of a signed-in user: the whitelist filter of updateMe,
    the public id of a stored photo, and the address-book operations. A request
    body is a map from field names to strings; a missing field is absent or "". */
module UserController {
  import opened Common

  type Body = map<string, string>

  /** filterObj: a copy of obj holding exactly its keys that are allowed, with
      their values. */
  method FilterObj(obj: Body, allowed: seq<string>) returns (r: Body)
    ensures r.Keys == obj.Keys * (set f | f in allowed)
    ensures forall k :: k in r ==> r[k] == obj[k]
  {
    r := map[];
    var keys := obj.Keys;
    while keys != {}
      invariant keys <= obj.Keys
      invariant r.Keys == (obj.Keys - keys) * (set f | f in allowed)
      invariant forall k :: k in r ==> k in obj && r[k] == obj[k]
      decreases |keys|
    {
      var k :| k in keys;
      if k in allowed {
        r := r[k := obj[k]];
      }
      keys := keys - {k};
    }
  }

  /** The index of the last c in s, or -1. */
  function LastIndexOf(s: string, c: char): (r: int)
    ensures -1 <= r < |s|
    ensures r >= 0 ==> s[r] == c
    ensures forall j :: r < j < |s| ==> s[j] != c
  {
    if s == [] then -1
    else if s[|s| - 1] == c then |s| - 1
    else LastIndexOf(s[..|s| - 1], c)
  }

  /** The index of the first c in s, or |s|. */
  function IndexOf(s: string, c: char): (r: nat)
    ensures r <= |s|
    ensures r < |s| ==> s[r] == c
    ensures forall j :: 0 <= j < r ==> s[j] != c
  {
    if s == [] then 0
    else if s[0] == c then 0
    else 1 + IndexOf(s[1..], c)
  }

  /** `s.split(c).pop()`: the part of s after its last c (all of s without one). */
  function AfterLast(s: string, c: char): string {
    s[LastIndexOf(s, c) + 1..]
  }

  /** `s.split(c)[0]`: the part of s before its first c (all of s without one). */
  function BeforeFirst(s: string, c: char): string {
    s[..IndexOf(s, c)]
  }

  /** The storage public id of a photo URL: its last '/'-segment up to the first '.'. */
  function PublicId(photo: string): string {
    BeforeFirst(AfterLast(photo, '/'), '.')
  }

  lemma {:induction false} AfterLastFree(s: string, c: char)
    ensures c !in AfterLast(s, c)
  {
  }

  lemma {:induction false} BeforeFirstFree(s: string, c: char, d: char)
    requires d !in s
    ensures c !in BeforeFirst(s, c) && d !in BeforeFirst(s, c)
  {
  }

  /** The public id holds neither '/' nor '.'. */
  lemma {:induction false} PublicIdChars(photo: string)
    ensures '/' !in PublicId(photo) && '.' !in PublicId(photo)
  {
    AfterLastFree(photo, '/');
    BeforeFirstFree(AfterLast(photo, '/'), '.', '/');
  }

  lemma {:induction false} SliceAt(s: string, k: nat)
    requires k <= |s|
    ensures s == s[..k] + s[k..]
  {
  }

  lemma {:induction false} SuffixFree(s: string, m: nat, c: char)
    requires m <= |s| && c !in s
    ensures c !in s[m..]
  {
  }

  lemma Concat3(whole: string, pre: string, seg: string, id: string, post: string)
    requires whole == pre + seg && seg == id + post
    ensures whole == pre + id + post
  {
  }

  /** The part of s up to and including its last c is empty or ends with c. */
  lemma {:induction false} UpToLast(s: string, c: char)
    ensures var pre := s[..LastIndexOf(s, c) + 1]; pre == [] || pre[|pre| - 1] == c
  {
  }

  /** The part of s from its first c on is empty or starts with c. */
  lemma {:induction false} FromFirst(s: string, c: char)
    ensures var post := s[IndexOf(s, c)..]; post == [] || post[0] == c
  {
  }

  /** The public id sits in the URL after its last '/' (or at its start), and
      is followed by nothing or by a '.' and a tail without '/'. */
  lemma {:induction false} PublicIdWithin(photo: string) returns (pre: string, post: string)
    ensures photo == pre + PublicId(photo) + post
    ensures pre == [] || pre[|pre| - 1] == '/'
    ensures '/' !in post && (post == [] || post[0] == '.')
  {
    var k := LastIndexOf(photo, '/') + 1;
    var seg := AfterLast(photo, '/');
    var m := IndexOf(seg, '.');
    var id := PublicId(photo);
    pre := photo[..k];
    post := seg[m..];
    assert photo == pre + seg by {
      SliceAt(photo, k);
    }
    assert seg == id + post by {
      SliceAt(seg, m);
    }
    Concat3(photo, pre, seg, id, post);
    UpToLast(photo, '/');
    FromFirst(seg, '.');
    assert '/' !in post by {
      AfterLastFree(photo, '/');
      SuffixFree(seg, m, '/');
    }
  }

  /** `s.includes(sub)`. */
  predicate Contains(s: string, sub: string)
    decreases |s|
  {
    |sub| <= |s| && (s[..|sub|] == sub || Contains(s[1..], sub))
  }

  const ProfileFields: seq<string> := ["firstName", "lastName", "email"]

  datatype UpdateMeError = PasswordUpdateRejected

  /** What updateMe writes to the user, and the stored photo it asks the media
      store to destroy (the destroy call itself is not modelled). */
  datatype ProfileUpdate = ProfileUpdate(fields: Body, destroy: Option<string>)

  predicate TruthyField(body: Body, key: string) {
    key in body && Truthy(body[key])
  }

  /** updateMe: a body with a password or passwordConfirm is refused; otherwise
      only firstName, lastName and email pass, plus photo when a file was
      uploaded, and a previous photo on the media store is scheduled for removal. */
  method UpdateMe(body: Body, uploaded: Option<string>, currentPhoto: string)
    returns (r: Result<ProfileUpdate, UpdateMeError>)
    ensures r.Err? <==> TruthyField(body, "password") || TruthyField(body, "passwordConfirm")
    ensures r.Ok? ==>
      r.value.fields.Keys == body.Keys * {"firstName", "lastName", "email"} + (if uploaded.Some? then {"photo"} else {})
    ensures r.Ok? ==> forall k :: k in r.value.fields && k != "photo" ==> r.value.fields[k] == body[k]
    ensures r.Ok? && uploaded.Some? ==> r.value.fields["photo"] == uploaded.value
    ensures r.Ok? ==>
      r.value.destroy == if uploaded.Some? && Truthy(currentPhoto) && Contains(currentPhoto, "cloudinary")
                         then Some("clothes-shop/" + PublicId(currentPhoto)) else None
  {
    if TruthyField(body, "password") || TruthyField(body, "passwordConfirm") {
      return Err(PasswordUpdateRejected);
    }
    var fields := FilterObj(body, ProfileFields);
    assert (set f | f in ProfileFields) == {"firstName", "lastName", "email"};
    var destroy: Option<string> := None;
    if uploaded.Some? {
      if Truthy(currentPhoto) && Contains(currentPhoto, "cloudinary") {
        destroy := Some("clothes-shop/" + PublicId(currentPhoto));
      }
      fields := fields["photo" := uploaded.value];
    }
    return Ok(ProfileUpdate(fields, destroy));
  }

  /** An entry of the user's address book; id is the entry's own object id. */
  datatype Address = Address(
    id: string,
    fullName: string,
    phoneNo: string,
    address: string,
    city: string,
    district: string,
    ward: string)

  /** The six editable fields as a request body gives them ("" when missing). */
  datatype AddressFields = AddressFields(
    fullName: string,
    phoneNo: string,
    address: string,
    city: string,
    district: string,
    ward: string)

  /** `addresses.filter(a => a._id !== addressId)`. */
  function WithoutId(xs: seq<Address>, id: string): (r: seq<Address>)
    ensures forall a :: a in r <==> a in xs && a.id != id
    ensures |r| <= |xs|
  {
    if xs == [] then []
    else (if xs[0].id != id then [xs[0]] else []) + WithoutId(xs[1..], id)
  }

  /** The filter distributes over concatenation, so the kept entries stay in
      their order. */
  lemma {:induction false} WithoutIdAppend(xs: seq<Address>, ys: seq<Address>, id: string)
    ensures WithoutId(xs + ys, id) == WithoutId(xs, id) + WithoutId(ys, id)
    decreases |xs|
  {
    if xs == [] {
      assert xs + ys == ys;
    } else {
      assert (xs + ys)[1..] == xs[1..] + ys;
      WithoutIdAppend(xs[1..], ys, id);
    }
  }

  /** Removing an id that no entry has leaves the book as it was. */
  lemma {:induction false} WithoutIdAbsent(xs: seq<Address>, id: string)
    requires forall i :: 0 <= i < |xs| ==> xs[i].id != id
    ensures WithoutId(xs, id) == xs
    decreases |xs|
  {
    if xs != [] {
      WithoutIdAbsent(xs[1..], id);
    }
  }

  function Pick(given: string, current: string): string {
    if Truthy(given) then given else current
  }

  /** The update of one matching entry: each field takes the given value when it
      is truthy and keeps its own otherwise; the id never changes. */
  function Patched(a: Address, patch: AddressFields): (r: Address)
    ensures r.id == a.id
    ensures Truthy(patch.fullName) ==> r.fullName == patch.fullName
    ensures !Truthy(patch.fullName) ==> r.fullName == a.fullName
    ensures Truthy(patch.phoneNo) ==> r.phoneNo == patch.phoneNo
    ensures !Truthy(patch.phoneNo) ==> r.phoneNo == a.phoneNo
    ensures Truthy(patch.address) ==> r.address == patch.address
    ensures !Truthy(patch.address) ==> r.address == a.address
    ensures Truthy(patch.city) ==> r.city == patch.city
    ensures !Truthy(patch.city) ==> r.city == a.city
    ensures Truthy(patch.district) ==> r.district == patch.district
    ensures !Truthy(patch.district) ==> r.district == a.district
    ensures Truthy(patch.ward) ==> r.ward == patch.ward
    ensures !Truthy(patch.ward) ==> r.ward == a.ward
  {
    Address(a.id, Pick(patch.fullName, a.fullName), Pick(patch.phoneNo, a.phoneNo),
            Pick(patch.address, a.address), Pick(patch.city, a.city),
            Pick(patch.district, a.district), Pick(patch.ward, a.ward))
  }

  /** An empty patch changes nothing, and applying a patch twice is applying it once. */
  lemma {:induction false} PatchedLaws(a: Address, patch: AddressFields)
    ensures Patched(a, AddressFields("", "", "", "", "", "")) == a
    ensures Patched(Patched(a, patch), patch) == Patched(a, patch)
  {
  }

  /** A signed-in user's address book. */
  class UserAccount {
    var addresses: seq<Address>

    constructor(initial: seq<Address>)
      ensures addresses == initial
    {
      addresses := initial;
    }

    /** createAllAdress: the new entry, with its freshly assigned id, goes at the end. */
    method CreateAddress(fields: AddressFields, freshId: string)
      modifies this
      ensures addresses == old(addresses) + [Address(freshId, fields.fullName, fields.phoneNo, fields.address,
                                                     fields.city, fields.district, fields.ward)]
    {
      addresses := addresses + [Address(freshId, fields.fullName, fields.phoneNo, fields.address,
                                        fields.city, fields.district, fields.ward)];
    }

    /** deleteAddress: every entry with the id goes; the rest stay in order. */
    method DeleteAddress(addressId: string)
      modifies this
      ensures addresses == WithoutId(old(addresses), addressId)
    {
      addresses := WithoutId(addresses, addressId);
    }

    /** updatedAdresses: every entry with the id is patched in place; the others
        and the length are unchanged. */
    method UpdateAddresses(addressId: string, patch: AddressFields)
      modifies this
      ensures |addresses| == |old(addresses)|
      ensures forall i :: 0 <= i < |addresses| ==>
        addresses[i] == if old(addresses)[i].id == addressId then Patched(old(addresses)[i], patch) else old(addresses)[i]
    {
      var i := 0;
      while i < |addresses|
        invariant 0 <= i <= |addresses| == |old(addresses)|
        invariant forall j :: 0 <= j < i ==>
          addresses[j] == if old(addresses)[j].id == addressId then Patched(old(addresses)[j], patch) else old(addresses)[j]
        invariant forall j :: i <= j < |addresses| ==> addresses[j] == old(addresses)[j]
      {
        if addresses[i].id == addressId {
          addresses := addresses[i := Patched(addresses[i], patch)];
        }
        i := i + 1;
      }
    }
  }
}
