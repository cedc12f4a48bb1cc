/**
  The single-line address strings the rate handler sends to the courier: the
  four address fields joined by single spaces, as a template literal renders
  them, and the fixed store address used when the origin has no street line.
 */
module Addresses {
  import opened Wrappers
  import opened JsNumbers

  /** A postal code as it arrives in JSON: a string, or an integer number. */
  datatype PostalCode = Text(s: string) | Number(n: int)

  /** A shipping address of the rate request (fields absent in JSON read as ""). */
  datatype Address = Address(address1: string, city: string, province: string, postalCode: PostalCode, country: string)

  /** `${postal_code}`: a string as it is, a number in decimal. */
  function PostalText(p: PostalCode): (s: string)
    ensures p.Text? ==> s == p.s
    ensures p.Number? ==> ParseCanonicalInt(s) == Some(p.n)
  {
    match p
    case Text(s) => s
    case Number(n) => IntToStringRoundTrip(n); IntToString(n)
  }

  /** The fields joined with one space between neighbours. */
  function SpaceJoin(fields: seq<string>): string
    decreases |fields|
  {
    if |fields| == 0 then ""
    else if |fields| == 1 then fields[0]
    else fields[0] + " " + SpaceJoin(fields[1..])
  }

  /** The maximal space-free pieces of `s`, in order; the inverse of SpaceJoin on space-free fields. */
  function SplitSpaces(s: string): (r: seq<string>)
    ensures |r| >= 1
    decreases |s|
  {
    if |s| == 0 then [""]
    else
      var rest := SplitSpaces(s[1..]);
      if s[0] == ' ' then [""] + rest else [[s[0]] + rest[0]] + rest[1..]
  }

  predicate SpaceFree(f: string) { ' ' !in f }

  /** `${address1} ${city} ${province} ${postal_code}` */
  function FormatAddress(a: Address): (s: string)
    ensures s == a.address1 + " " + a.city + " " + a.province + " " + PostalText(a.postalCode)
  {
    var pc := PostalText(a.postalCode);
    var fields := [a.address1, a.city, a.province, pc];
    assert SpaceJoin(fields[1..][1..]) == a.province + " " + pc by {
      assert fields[1..][1..][1..] == [pc];
    }
    assert SpaceJoin(fields[1..]) == a.city + " " + a.province + " " + pc;
    SpaceJoin(fields)
  }

  const DefaultPickupAddress: string := "184 Lexington Ave New York NY 10016"

  /** The store the courier collects from when the request names no origin street. */
  const StoreAddress: Address := Address("184 Lexington Ave", "New York", "NY", Text("10016"), "US")

  /**
    The pickup address: the origin's four fields when `origin?.address1` is
    truthy, the store's address otherwise.
   */
  function PickupAddress(origin: Option<Address>): (s: string)
    ensures origin.Some? && origin.value.address1 != "" ==> s == FormatAddress(origin.value)
    ensures origin.None? || origin.value.address1 == "" ==> s == DefaultPickupAddress
  {
    if origin.Some? && origin.value.address1 != "" then FormatAddress(origin.value) else DefaultPickupAddress
  }

  /** The delivery address: the destination's four fields. */
  function DeliveryAddress(dest: Address): (s: string)
    ensures s == dest.address1 + " " + dest.city + " " + dest.province + " " + PostalText(dest.postalCode)
  {
    FormatAddress(dest)
  }

  /** The default pickup string is the store's own address in the same format. */
  lemma DefaultIsStoreAddress()
    ensures DefaultPickupAddress == FormatAddress(StoreAddress)
    ensures PickupAddress(Some(StoreAddress)) == PickupAddress(None)
  {
  }

  lemma {:induction false} SplitSpaceFree(a: string)
    requires SpaceFree(a)
    ensures SplitSpaces(a) == [a]
    decreases |a|
  {
    if |a| > 0 {
      SplitSpaceFree(a[1..]);
      assert [a[0]] + a[1..] == a;
    }
  }

  lemma {:induction false} SplitAfterField(a: string, t: string)
    requires SpaceFree(a)
    ensures SplitSpaces(a + " " + t) == [a] + SplitSpaces(t)
    decreases |a|
  {
    var s := a + " " + t;
    if |a| == 0 {
      assert s[1..] == t;
    } else {
      assert s[1..] == a[1..] + " " + t;
      SplitAfterField(a[1..], t);
      assert [a[0]] + a[1..] == a;
    }
  }

  /** Splitting a join of space-free fields at its spaces gives the fields back. */
  lemma {:induction false} SplitJoin(fields: seq<string>)
    requires |fields| >= 1
    requires forall i :: 0 <= i < |fields| ==> SpaceFree(fields[i])
    ensures SplitSpaces(SpaceJoin(fields)) == fields
    decreases |fields|
  {
    if |fields| == 1 {
      SplitSpaceFree(fields[0]);
    } else {
      SplitAfterField(fields[0], SpaceJoin(fields[1..]));
      SplitJoin(fields[1..]);
    }
  }

  /**
    When no field holds a space, the four fields are recoverable from the
    address string: the format loses nothing and keeps their order.
   */
  lemma AddressFieldsRecoverable(a: Address)
    requires SpaceFree(a.address1) && SpaceFree(a.city) && SpaceFree(a.province) && SpaceFree(PostalText(a.postalCode))
    ensures SplitSpaces(FormatAddress(a)) == [a.address1, a.city, a.province, PostalText(a.postalCode)]
  {
    var fields := [a.address1, a.city, a.province, PostalText(a.postalCode)];
    assert fields[1..][1..][1..] == [PostalText(a.postalCode)];
    SplitJoin(fields);
  }

  /**
    Without the space-free condition the fields are not recoverable: moving a
    word between neighbouring fields leaves the address string unchanged.
   */
  lemma FormatAddressNotInjective()
    ensures Address("1 A", "B", "NY", Text("1"), "US") != Address("1", "A B", "NY", Text("1"), "US")
    ensures FormatAddress(Address("1 A", "B", "NY", Text("1"), "US")) == FormatAddress(Address("1", "A B", "NY", Text("1"), "US"))
  {
  }
}
