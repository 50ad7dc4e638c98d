/**
 * The admin "Vendors" page (pages/admin/Vendors.tsx): the fetched seller
 * profiles are narrowed by the search box, matching the business name without
 * regard to case or the phone number exactly.
 */
module AdminVendors {
  import opened Wrappers
  import opened Text
  import opened Seqs

  /** A fetched seller profile; every column may be null. */
  datatype Vendor = Vendor(
    id: string,
    businessName: Option<string>,
    phone: Option<string>,
    smsBalance: Option<int>)

  /** `v.business_name?.toLowerCase().includes(searchTerm.toLowerCase())`, a
      missing name counting as no match. */
  predicate NameMatches(vendor: Vendor, term: string)
  {
    vendor.businessName.Some? && Includes(ToLower(vendor.businessName.value), ToLower(term))
  }

  /** `v.phone?.includes(searchTerm)`, a missing phone counting as no match. */
  predicate PhoneMatches(vendor: Vendor, term: string)
  {
    vendor.phone.Some? && Includes(vendor.phone.value, term)
  }

  predicate VendorMatches(vendor: Vendor, term: string)
  {
    NameMatches(vendor, term) || PhoneMatches(vendor, term)
  }

  function SearchFilter(term: string): Vendor -> bool
  {
    vendor => VendorMatches(vendor, term)
  }

  /** `filteredVendors`: the profiles whose name or phone matches the search term. */
  function FilterVendors(vendors: seq<Vendor>, term: string): (shown: seq<Vendor>)
    ensures |shown| <= |vendors|
    ensures forall i :: 0 <= i < |shown| ==> VendorMatches(shown[i], term)
    ensures forall v :: v in shown ==> v in vendors
  {
    Filter(vendors, SearchFilter(term))
  }

  /** A profile is shown exactly when it was fetched and either its lower-cased
      name has the lower-cased term at some position, or its phone has the term,
      character for character, at some position. */
  lemma FilterVendorsMembership(vendors: seq<Vendor>, term: string, vendor: Vendor)
    ensures vendor in FilterVendors(vendors, term) <==>
      vendor in vendors &&
      ((vendor.businessName.Some? &&
        exists i :: 0 <= i <= |vendor.businessName.value| &&
          OccursAt(ToLower(vendor.businessName.value), ToLower(term), i)) ||
       (vendor.phone.Some? &&
        exists i :: 0 <= i <= |vendor.phone.value| && OccursAt(vendor.phone.value, term, i)))
  {
    FilterMembership(vendors, SearchFilter(term), vendor);
    if vendor.businessName.Some? {
      IncludesIff(ToLower(vendor.businessName.value), ToLower(term));
    }
    if vendor.phone.Some? {
      IncludesIff(vendor.phone.value, term);
    }
  }

  /** The shown profiles keep the fetched (newest first) order. */
  lemma FilterVendorsKeepsOrder(vendors: seq<Vendor>, term: string)
    ensures IsSubsequence(FilterVendors(vendors, term), vendors)
  {
    FilterIsSubsequence(vendors, SearchFilter(term));
  }

  /** A profile with neither a business name nor a phone never matches a search. */
  lemma NoContactNeverShown(vendors: seq<Vendor>, term: string, vendor: Vendor)
    requires vendor.businessName.None? && vendor.phone.None?
    ensures vendor !in FilterVendors(vendors, term)
  {
    FilterMembership(vendors, SearchFilter(term), vendor);
  }

  predicate HasNameOrPhone(vendor: Vendor)
  {
    vendor.businessName.Some? || vendor.phone.Some?
  }

  /** With an empty search box the page lists exactly the profiles that have a
      business name or a phone. */
  lemma {:induction false} EmptySearchShowsContactable(vendors: seq<Vendor>)
    ensures FilterVendors(vendors, "") == Filter(vendors, HasNameOrPhone)
  {
    forall i | 0 <= i < |vendors| ensures SearchFilter("")(vendors[i]) == HasNameOrPhone(vendors[i]) {
      var v := vendors[i];
      if v.businessName.Some? {
        assert ToLower("") == "";
        IncludesEmpty(ToLower(v.businessName.value));
      }
      if v.phone.Some? {
        IncludesEmpty(v.phone.value);
      }
    }
    FilterCongruent(vendors, SearchFilter(""), HasNameOrPhone);
  }

  // The examples below take their literal inputs as parameters fixed by a
  // `requires`: with the literal written into the call, the verifier unfolds the
  // recursive definitions on it eagerly and the proofs no longer stay small.

  /** `"BOUTIQUE"` finds the name `"Ama Boutique"`: both sides are lower-cased. */
  lemma NameSearchIgnoresCase(name: string, term: string)
    requires name == "Ama Boutique" && term == "BOUTIQUE"
    ensures Includes(ToLower(name), ToLower(term))
  {
    assert OccursAt(ToLower(name), ToLower(term), 4);
    IncludesIff(ToLower(name), ToLower(term));
  }

  /** `"ext"` is not in the name `"Ama Boutique"`, lower-cased or not. */
  lemma NameSearchMisses(name: string, term: string)
    requires name == "Ama Boutique" && term == "ext"
    ensures !Includes(ToLower(name), ToLower(term))
  {
    assert ToLower(term) == term;
    assert forall j :: 0 <= j < 10 ==> name[j] != 'e' && name[j] != 'E';
    NotIncludesByFirstChar(ToLower(name), term);
  }

  /** `"ext"` does not find the phone `"EXT-12"`: the phone is searched as typed. */
  lemma PhoneSearchKeepsCase(phone: string, term: string)
    requires phone == "EXT-12" && term == "ext"
    ensures !Includes(phone, term)
  {
    NotIncludesByFirstChar(phone, term);
  }

  /** Upper-case letters in the term still find a lower-case name, but a phone
      is searched as typed: `"BOUTIQUE"` finds the name `"Ama Boutique"`, and
      `"ext"` does not find the phone `"EXT-12"`. */
  lemma SearchCaseExamples(vendor: Vendor, upper: string, lower: string)
    requires vendor == Vendor("v1", Some("Ama Boutique"), Some("EXT-12"), None)
    requires upper == "BOUTIQUE" && lower == "ext"
    ensures NameMatches(vendor, upper)
    ensures !VendorMatches(vendor, lower)
  {
    NameSearchIgnoresCase(vendor.businessName.value, upper);
    NameSearchMisses(vendor.businessName.value, lower);
    PhoneSearchKeepsCase(vendor.phone.value, lower);
  }

  /** `v.sms_balance || 0`: the balance shown in the vendor's row. */
  function SmsBalanceShown(vendor: Vendor): (balance: int)
    ensures vendor.smsBalance.None? ==> balance == 0
    ensures vendor.smsBalance.Some? ==> balance == vendor.smsBalance.value
  {
    vendor.smsBalance.GetOr(0)
  }
}
