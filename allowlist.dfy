/** The admin PATCH pattern of the routes: keep only the allow-listed keys of
    the request body, then write them into the row. A value of the wrong JSON
    type for its column is refused by the storage layer, so applying an update
    can fail as a whole (`None`); nothing is written in that case. */
module Allowlist {
  import opened Base
  import opened Records

  const UserFields: seq<string> := ["balance", "isAdmin", "isBanned", "referralCount"]
  const PhoneNumberFields: seq<string> := ["price", "isAvailable", "country"]
  const OrderFields: seq<string> := ["status", "code"]
  const ProductFields: seq<string> := ["isAdminApproved", "status", "price", "name", "description"]
  const ServiceFields: seq<string> := ["name", "slug", "description", "icon", "isActive"]
  const CountryFields: seq<string> := ["name", "code", "flag", "isActive"]

  /** The entries of `body` whose key is allow-listed. */
  ghost function Restrict(body: map<string, Json>, allowed: seq<string>): map<string, Json>
  {
    map k | k in body && k in allowed :: body[k]
  }

  /** The `for (const field of allowedFields) if (field in req.body) updates[field] = req.body[field]`
      loop: the result holds exactly the allow-listed keys present in the body, with
      the body's values; every other key is dropped silently. */
  method PickAllowed(allowed: seq<string>, body: map<string, Json>) returns (updates: map<string, Json>)
    ensures updates.Keys == body.Keys * (set f | f in allowed)
    ensures forall k :: k in updates ==> updates[k] == body[k]
    ensures updates == Restrict(body, allowed)
    ensures updates == map[] <==> forall f :: f in allowed ==> f !in body
  {
    updates := map[];
    var i := 0;
    while i < |allowed|
      invariant 0 <= i <= |allowed|
      invariant updates.Keys == body.Keys * (set f | f in allowed[..i])
      invariant forall k :: k in updates ==> k in body && updates[k] == body[k]
    {
      var field := allowed[i];
      if field in body {
        updates := updates[field := body[field]];
      }
      assert allowed[..i + 1] == allowed[..i] + [field];
      i := i + 1;
    }
    assert allowed[..i] == allowed;
    if updates == map[] {
      forall f | f in allowed ensures f !in body {
        assert f !in updates.Keys;
      }
    }
  }

  // Whether a present key carries a value of the column's type.

  predicate NumOk(upd: map<string, Json>, key: string) { key !in upd || upd[key].JNum? }
  predicate BoolOk(upd: map<string, Json>, key: string) { key !in upd || upd[key].JBool? }
  predicate StrOk(upd: map<string, Json>, key: string) { key !in upd || upd[key].JStr? }
  predicate NullableStrOk(upd: map<string, Json>, key: string) { key !in upd || upd[key].JStr? || upd[key].JNull? }

  // How a column ends up after an update: the sent value if the key is present, else the old one.

  predicate SetsNum(upd: map<string, Json>, key: string, was: int, now: int)
  {
    if key in upd then upd[key] == JNum(now) else now == was
  }
  predicate SetsBool(upd: map<string, Json>, key: string, was: bool, now: bool)
  {
    if key in upd then upd[key] == JBool(now) else now == was
  }
  predicate SetsStr(upd: map<string, Json>, key: string, was: string, now: string)
  {
    if key in upd then upd[key] == JStr(now) else now == was
  }
  predicate SetsNullableStr(upd: map<string, Json>, key: string, was: Option<string>, now: Option<string>)
  {
    if key in upd then upd[key] == (if now.Some? then JStr(now.value) else JNull) else now == was
  }

  function NumField(upd: map<string, Json>, key: string, was: int): (r: Option<int>)
    ensures r.Some? <==> NumOk(upd, key)
    ensures r.Some? ==> SetsNum(upd, key, was, r.value)
  {
    if key !in upd then Some(was) else match upd[key] case JNum(n) => Some(n) case _ => None
  }

  function BoolField(upd: map<string, Json>, key: string, was: bool): (r: Option<bool>)
    ensures r.Some? <==> BoolOk(upd, key)
    ensures r.Some? ==> SetsBool(upd, key, was, r.value)
  {
    if key !in upd then Some(was) else match upd[key] case JBool(b) => Some(b) case _ => None
  }

  function StrField(upd: map<string, Json>, key: string, was: string): (r: Option<string>)
    ensures r.Some? <==> StrOk(upd, key)
    ensures r.Some? ==> SetsStr(upd, key, was, r.value)
  {
    if key !in upd then Some(was) else match upd[key] case JStr(s) => Some(s) case _ => None
  }

  function NullableStrField(upd: map<string, Json>, key: string, was: Option<string>): (r: Option<Option<string>>)
    ensures r.Some? <==> NullableStrOk(upd, key)
    ensures r.Some? ==> SetsNullableStr(upd, key, was, r.value)
  {
    if key !in upd then Some(was)
    else match upd[key] case JStr(s) => Some(Some(s)) case JNull => Some(None) case _ => None
  }

  /** `storage.updateUser(id, updates)` for the admin user update. */
  function PatchUser(u: User, upd: map<string, Json>): (r: Option<User>)
    ensures r.Some? <==> NumOk(upd, "balance") && BoolOk(upd, "isAdmin") && BoolOk(upd, "isBanned")
                         && NumOk(upd, "referralCount")
    ensures r.Some? ==> r.value.(balance := u.balance, isAdmin := u.isAdmin, isBanned := u.isBanned,
                                 referralCount := u.referralCount) == u
    ensures r.Some? ==> SetsNum(upd, "balance", u.balance, r.value.balance)
                        && SetsBool(upd, "isAdmin", u.isAdmin, r.value.isAdmin)
                        && SetsBool(upd, "isBanned", u.isBanned, r.value.isBanned)
                        && SetsNum(upd, "referralCount", u.referralCount, r.value.referralCount)
  {
    var balance :- NumField(upd, "balance", u.balance);
    var isAdmin :- BoolField(upd, "isAdmin", u.isAdmin);
    var isBanned :- BoolField(upd, "isBanned", u.isBanned);
    var referralCount :- NumField(upd, "referralCount", u.referralCount);
    Some(u.(balance := balance, isAdmin := isAdmin, isBanned := isBanned, referralCount := referralCount))
  }

  /** `storage.updatePhoneNumber(id, updates)`. */
  function PatchPhoneNumber(p: PhoneNumber, upd: map<string, Json>): (r: Option<PhoneNumber>)
    ensures r.Some? <==> NumOk(upd, "price") && BoolOk(upd, "isAvailable") && StrOk(upd, "country")
    ensures r.Some? ==> r.value.(price := p.price, isAvailable := p.isAvailable, country := p.country) == p
    ensures r.Some? ==> SetsNum(upd, "price", p.price, r.value.price)
                        && SetsBool(upd, "isAvailable", p.isAvailable, r.value.isAvailable)
                        && SetsStr(upd, "country", p.country, r.value.country)
  {
    var price :- NumField(upd, "price", p.price);
    var isAvailable :- BoolField(upd, "isAvailable", p.isAvailable);
    var country :- StrField(upd, "country", p.country);
    Some(p.(price := price, isAvailable := isAvailable, country := country))
  }

  /** `storage.updateOrder(id, updates)`: the amount, owner and number of an order never change. */
  function PatchOrder(o: Order, upd: map<string, Json>): (r: Option<Order>)
    ensures r.Some? <==> StrOk(upd, "status") && NullableStrOk(upd, "code")
    ensures r.Some? ==> r.value.(status := o.status, code := o.code) == o
    ensures r.Some? ==> r.value.totalAmount == o.totalAmount
    ensures r.Some? ==> SetsStr(upd, "status", o.status, r.value.status)
                        && SetsNullableStr(upd, "code", o.code, r.value.code)
  {
    var status :- StrField(upd, "status", o.status);
    var code :- NullableStrField(upd, "code", o.code);
    Some(o.(status := status, code := code))
  }

  /** `storage.updateProduct(id, updates)`. */
  function PatchProduct(p: Product, upd: map<string, Json>): (r: Option<Product>)
    ensures r.Some? <==> BoolOk(upd, "isAdminApproved") && StrOk(upd, "status") && NumOk(upd, "price")
                         && StrOk(upd, "name") && StrOk(upd, "description")
    ensures r.Some? ==> r.value.(isAdminApproved := p.isAdminApproved, status := p.status, price := p.price,
                                 name := p.name, description := p.description) == p
    ensures r.Some? ==> SetsBool(upd, "isAdminApproved", p.isAdminApproved, r.value.isAdminApproved)
                        && SetsStr(upd, "status", p.status, r.value.status)
                        && SetsNum(upd, "price", p.price, r.value.price)
                        && SetsStr(upd, "name", p.name, r.value.name)
                        && SetsStr(upd, "description", p.description, r.value.description)
  {
    var isAdminApproved :- BoolField(upd, "isAdminApproved", p.isAdminApproved);
    var status :- StrField(upd, "status", p.status);
    var price :- NumField(upd, "price", p.price);
    var name :- StrField(upd, "name", p.name);
    var description :- StrField(upd, "description", p.description);
    Some(p.(isAdminApproved := isAdminApproved, status := status, price := price, name := name,
            description := description))
  }

  /** `storage.updateService(id, updates)`. */
  function PatchService(s: Service, upd: map<string, Json>): (r: Option<Service>)
    ensures r.Some? <==> StrOk(upd, "name") && StrOk(upd, "slug") && StrOk(upd, "description")
                         && StrOk(upd, "icon") && BoolOk(upd, "isActive")
    ensures r.Some? ==> r.value.(name := s.name, slug := s.slug, description := s.description,
                                 icon := s.icon, isActive := s.isActive) == s
    ensures r.Some? ==> SetsStr(upd, "name", s.name, r.value.name)
                        && SetsStr(upd, "slug", s.slug, r.value.slug)
                        && SetsStr(upd, "description", s.description, r.value.description)
                        && SetsStr(upd, "icon", s.icon, r.value.icon)
                        && SetsBool(upd, "isActive", s.isActive, r.value.isActive)
  {
    var name :- StrField(upd, "name", s.name);
    var slug :- StrField(upd, "slug", s.slug);
    var description :- StrField(upd, "description", s.description);
    var icon :- StrField(upd, "icon", s.icon);
    var isActive :- BoolField(upd, "isActive", s.isActive);
    Some(s.(name := name, slug := slug, description := description, icon := icon, isActive := isActive))
  }

  /** `storage.updateCountry(id, updates)`. */
  function PatchCountry(c: Country, upd: map<string, Json>): (r: Option<Country>)
    ensures r.Some? <==> StrOk(upd, "name") && StrOk(upd, "code") && StrOk(upd, "flag")
                         && BoolOk(upd, "isActive")
    ensures r.Some? ==> r.value.(name := c.name, code := c.code, flag := c.flag, isActive := c.isActive) == c
    ensures r.Some? ==> SetsStr(upd, "name", c.name, r.value.name)
                        && SetsStr(upd, "code", c.code, r.value.code)
                        && SetsStr(upd, "flag", c.flag, r.value.flag)
                        && SetsBool(upd, "isActive", c.isActive, r.value.isActive)
  {
    var name :- StrField(upd, "name", c.name);
    var code :- StrField(upd, "code", c.code);
    var flag :- StrField(upd, "flag", c.flag);
    var isActive :- BoolField(upd, "isActive", c.isActive);
    Some(c.(name := name, code := code, flag := flag, isActive := isActive))
  }
}
