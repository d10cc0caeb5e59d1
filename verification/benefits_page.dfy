/**
  The member benefits page of the web client: the search box that narrows the
  featured and the per-category lists, the category selector, and what each
  benefit card shows (the discount badge, the shortened location, the action
  button) together with the guard in front of recording a use.
*/
module BenefitsPage {
  import opened Wrappers
  import opened Strings

  /** The benefit fields the page reads. Numbers that may be `null` are optional. */
  datatype Benefit = Benefit(
    id: nat,
    title: string,
    partnerName: string,
    description: string,
    discountPercentage: Option<int>,
    discountAmount: Option<int>,
    location: string,
    websiteUrl: string,
    isAvailableInZone: bool)

  // ---------------------------------------------------------------------------
  // Search

  /** The search predicate: the lower-cased term occurs in the lower-cased title,
      partner name or description. */
  predicate Matches(b: Benefit, term: string) {
    var t := Lower(term);
    Includes(Lower(b.title), t) || Includes(Lower(b.partnerName), t) || Includes(Lower(b.description), t)
  }

  /** The filter applied to both the featured list and the category list. */
  function FilterBenefits(benefits: seq<Benefit>, term: string): (r: seq<Benefit>)
    ensures |r| <= |benefits|
    ensures forall b :: b in r <==> b in benefits && Matches(b, term)
    ensures forall b :: multiset(r)[b] == if Matches(b, term) then multiset(benefits)[b] else 0
    ensures IsSubsequence(r, benefits)
  {
    Select(benefits, (b: Benefit) => Matches(b, term))
  }

  /** The two lists the page shows, each narrowed by the search term. */
  datatype Shown = Shown(featured: seq<Benefit>, inCategory: seq<Benefit>)

  function ShownBenefits(featured: seq<Benefit>, inCategory: seq<Benefit>, term: string): (r: Shown)
    ensures forall b :: multiset(r.featured)[b] == if Matches(b, term) then multiset(featured)[b] else 0
    ensures forall b :: multiset(r.inCategory)[b] == if Matches(b, term) then multiset(inCategory)[b] else 0
    ensures IsSubsequence(r.featured, featured) && IsSubsequence(r.inCategory, inCategory)
  {
    Shown(FilterBenefits(featured, term), FilterBenefits(inCategory, term))
  }

  /** Every string contains the empty string. */
  lemma IncludesEmpty(s: string)
    ensures Includes(s, "")
  {
    assert StartsWith(s, "");
  }

  /** With nothing typed in the search box every benefit is shown. */
  lemma EmptyTermKeepsAll(benefits: seq<Benefit>)
    ensures FilterBenefits(benefits, "") == benefits
  {
    forall b | b in benefits ensures Matches(b, "") {
      IncludesEmpty(Lower(b.title));
    }
    SelectKeepsAll(benefits, (b: Benefit) => Matches(b, ""));
  }

  /** Searching the result again with the same term changes nothing. */
  lemma FilterIdempotent(benefits: seq<Benefit>, term: string)
    ensures FilterBenefits(FilterBenefits(benefits, term), term) == FilterBenefits(benefits, term)
  {
    SelectIdempotent(benefits, (b: Benefit) => Matches(b, term));
  }

  /** Lower-casing is idempotent. */
  lemma {:induction false} LowerIdempotent(s: string)
    ensures Lower(Lower(s)) == Lower(s)
  {
    assert forall k :: 0 <= k < |s| ==> LowerChar(LowerChar(s[k])) == LowerChar(s[k]);
  }

  /** The search ignores the case of the term: typing it in capitals finds the same
      benefits. */
  lemma SearchIgnoresCase(benefits: seq<Benefit>, term: string)
    ensures FilterBenefits(benefits, Lower(term)) == FilterBenefits(benefits, term)
  {
    LowerIdempotent(term);
    SelectCongruent(benefits, (b: Benefit) => Matches(b, Lower(term)), (b: Benefit) => Matches(b, term));
  }

  // ---------------------------------------------------------------------------
  // Category selection

  /** `selectedCategory` is a category id or `null` ("All Categories"); JavaScript
      treats the id `0` like `null`. */
  predicate CategoryChosen(selected: Option<int>) {
    selected.Some? && selected.value != 0
  }

  /** The category list after the selection changes. For a chosen category the list
      is what the request returned (`fetched`), or stays as it was when the request
      failed; otherwise it is emptied. */
  function CategoryListAfterSelect(current: seq<Benefit>, selected: Option<int>, fetched: Option<seq<Benefit>>): (r: seq<Benefit>)
    ensures !CategoryChosen(selected) ==> r == []
    ensures CategoryChosen(selected) && fetched.Some? ==> r == fetched.value
    ensures CategoryChosen(selected) && fetched.None? ==> r == current
  {
    if CategoryChosen(selected) then fetched.GetOr(current) else []
  }

  // ---------------------------------------------------------------------------
  // The benefit card

  /** JavaScript truthiness of a number that may be `null`. */
  predicate Truthy(n: Option<int>) {
    n.Some? && n.value != 0
  }

  /** The decimal digits of a natural number, as a template literal prints it. */
  function NatText(n: nat): (r: string)
    ensures |r| >= 1
    ensures AllDigits(r)
    ensures r[0] == '0' ==> n == 0
    decreases n
  {
    var d := ['0' + (n % 10) as char];
    if n < 10 then d else NatText(n / 10) + d
  }

  /** The value of a string of decimal digits. */
  function DigitsValue(s: string): (v: nat)
    requires AllDigits(s)
    decreases |s|
  {
    if s == [] then 0 else DigitsValue(s[..|s| - 1]) * 10 + (s[|s| - 1] - '0') as nat
  }

  /** Reading the printed digits back gives the number. */
  lemma {:induction false} NatTextRoundTrip(n: nat)
    ensures DigitsValue(NatText(n)) == n
    decreases n
  {
    var r := NatText(n);
    if n >= 10 {
      NatTextRoundTrip(n / 10);
      assert r[..|r| - 1] == NatText(n / 10);
    }
  }

  /** A printed integer: an optional `-` followed by a non-empty run of digits. */
  predicate NumberLike(s: string) {
    if s != [] && s[0] == '-' then |s| >= 2 && AllDigits(s[1..]) else s != [] && AllDigits(s)
  }

  /** The value of a printed integer. */
  function NumberValue(s: string): int
    requires NumberLike(s)
  {
    if s[0] == '-' then -(DigitsValue(s[1..]) as int) else DigitsValue(s)
  }

  /** A number as a template literal prints it: no leading zero except for zero
      itself, and reading it back gives the number. */
  function NumberText(n: int): (r: string)
    ensures |r| >= 1
    ensures r[0] == '-' <==> n < 0
    ensures NumberLike(r) && NumberValue(r) == n
    ensures r[0] == '0' ==> r == "0"
    ensures n < 0 ==> r[1] != '0'
  {
    if n < 0 then
      NatTextRoundTrip(-n);
      var r := "-" + NatText(-n);
      assert r[1..] == NatText(-n);
      r
    else
      NatTextRoundTrip(n);
      NatText(n)
  }

  /** The discount badge: none, a percentage, or a fixed amount in taka. */
  datatype Badge = NoBadge | PercentOff(percent: int) | AmountOff(amount: int)

  /** A card shows a badge only when the percentage or the amount is truthy, and the
      percentage wins over the amount. */
  function DiscountBadge(b: Benefit): (r: Badge)
    ensures r == NoBadge <==> !Truthy(b.discountPercentage) && !Truthy(b.discountAmount)
    ensures Truthy(b.discountPercentage) ==> r == PercentOff(b.discountPercentage.value)
    ensures !Truthy(b.discountPercentage) && Truthy(b.discountAmount) ==> r == AmountOff(b.discountAmount.value)
  {
    if Truthy(b.discountPercentage) then PercentOff(b.discountPercentage.value)
    else if Truthy(b.discountAmount) then AmountOff(b.discountAmount.value)
    else NoBadge
  }

  /** The badge's label: empty only for no badge; a percentage is printed and
      followed by `% OFF`, an amount is printed between the taka sign and ` OFF`. */
  function BadgeText(badge: Badge): (r: string)
    ensures r == "" <==> badge == NoBadge
    ensures r != "" && r[0] == '\U{09F3}' <==> badge.AmountOff?
    ensures badge.PercentOff? ==>
      |r| > 5 && r[|r| - 5..] == "% OFF" && NumberLike(r[..|r| - 5]) && NumberValue(r[..|r| - 5]) == badge.percent
    ensures badge.PercentOff? ==> r[..|r| - 5] == NumberText(badge.percent)
    ensures badge.AmountOff? ==>
      |r| > 5 && r[|r| - 4..] == " OFF" && NumberLike(r[1..|r| - 4]) && NumberValue(r[1..|r| - 4]) == badge.amount
    ensures badge.AmountOff? ==> r[1..|r| - 4] == NumberText(badge.amount)
  {
    match badge
    case NoBadge => ""
    case PercentOff(p) =>
      var t := NumberText(p);
      assert (t + "% OFF")[..|t|] == t;
      t + "% OFF"
    case AmountOff(a) =>
      var t := NumberText(a);
      assert (['\U{09F3}'] + t + " OFF")[1..|t| + 1] == t;
      ['\U{09F3}'] + t + " OFF"
  }

  /** The longest location shown in full. */
  const LocationLimit := 50

  /** The location line: a location longer than the limit is cut to the limit and
      followed by `...`. */
  function ShortLocation(location: string): (r: string)
    ensures |r| <= LocationLimit + 3
    ensures |location| <= LocationLimit ==> r == location
    ensures |location| > LocationLimit ==>
              |r| == LocationLimit + 3 && r[..LocationLimit] == location[..LocationLimit] && r[LocationLimit..] == "..."
  {
    if |location| > LocationLimit then location[..LocationLimit] + "..." else location
  }

  /** A location is shown unchanged exactly when it fits, or when it is already a
      cut location. */
  lemma ShortLocationUnchangedIff(location: string)
    ensures ShortLocation(location) == location <==>
      |location| <= LocationLimit || (|location| == LocationLimit + 3 && location[LocationLimit..] == "...")
  {
    if |location| == LocationLimit + 3 && location[LocationLimit..] == "..." {
      assert location == location[..LocationLimit] + location[LocationLimit..];
    }
  }

  /** Shortening a shortened location changes nothing. */
  lemma ShortLocationIdempotent(location: string)
    ensures ShortLocation(ShortLocation(location)) == ShortLocation(location)
  {
    ShortLocationUnchangedIff(ShortLocation(location));
  }

  /** The location line is shown only for a non-empty location. */
  function LocationLine(location: string): (r: Option<string>)
    ensures r.None? <==> location == ""
    ensures r.Some? ==> r.value == ShortLocation(location)
  {
    if location == "" then None else Some(ShortLocation(location))
  }

  /** The card's action: a link to the partner's shop, or a plain button that may be
      disabled. */
  datatype Action = ShopLink(url: string) | UseButton(disabled: bool)

  /** A card links to the shop when it has a website; only the plain button looks at
      the zone, and it is disabled exactly when the benefit is not available in the
      rider's zone. */
  function CardAction(b: Benefit): (r: Action)
    ensures b.websiteUrl != "" ==> r == ShopLink(b.websiteUrl)
    ensures b.websiteUrl == "" ==> r.UseButton? && (r.disabled <==> !b.isAvailableInZone)
  {
    if b.websiteUrl != "" then ShopLink(b.websiteUrl) else UseButton(!b.isAvailableInZone)
  }

  /** An unavailable benefit is still reachable through its shop link. */
  lemma ShopLinkIgnoresZone(b: Benefit)
    requires b.websiteUrl != ""
    ensures CardAction(b) == CardAction(b.(isAvailableInZone := !b.isAvailableInZone))
  {
  }

  // ---------------------------------------------------------------------------
  // Recording a use

  const LoginFirstAlert := "Please login to use benefits"
  const UseRecordedAlert := "Benefit usage recorded successfully!"
  const UseFailedAlert := "Failed to use benefit"

  /** What pressing the action does: whether the use is sent to the server, and the
      alert shown afterwards. */
  datatype UseOutcome = UseOutcome(requestSent: bool, alert: string)

  /** `handleUseBenefit`. `reply` is the request's outcome: success, or a failure
      carrying the thrown error's message (`None` when what was thrown is not an
      `Error`). */
  function HandleUseBenefit(authenticated: bool, reply: Result<(), Option<string>>): (r: UseOutcome)
    ensures r.requestSent <==> authenticated
    ensures !authenticated ==> r.alert == LoginFirstAlert
    ensures authenticated && reply.Success? ==> r.alert == UseRecordedAlert
    ensures authenticated && reply.Failure? ==> r.alert == reply.error.GetOr(UseFailedAlert)
  {
    if !authenticated then UseOutcome(false, LoginFirstAlert)
    else
      match reply
      case Success(_) => UseOutcome(true, UseRecordedAlert)
      case Failure(message) => UseOutcome(true, message.GetOr(UseFailedAlert))
  }
}
