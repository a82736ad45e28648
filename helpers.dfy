/** The instant-task tariff, nearest-runner selection, delivery-time estimate
    and the two field validators (mobile-app/src/core/utils/helpers.ts).
    Distances come from a distance function passed in as a parameter in place
    of the Haversine formula. */
module Helpers {
  import opened Wrappers
  import opened Types
  import opened Numeric
  import Strings

  // ---------------------------------------------------------------------------
  // Fare
  // ---------------------------------------------------------------------------

  /** `fareConfig`: 500 flat for the first 2 km, 150 for every started km
      beyond, never less than 500. */
  const Tariff: FareConfig := FareConfig(500, 150, 2.0, 500)

  /** `calculateFare`. */
  function CalculateFare(distance: real): (r: FareCalculationResult)
    ensures r.distance == distance && r.baseFare == Tariff.flatRate
    ensures distance <= Tariff.baseDistance ==> r.distanceFare == 0
    ensures distance > Tariff.baseDistance ==>
              r.distanceFare > 0 && r.distanceFare % Tariff.perKmRate == 0 &&
              (distance - Tariff.baseDistance) * 150.0 <= r.distanceFare as real < (distance - Tariff.baseDistance + 1.0) * 150.0
    ensures r.totalFare >= Tariff.minimumFare
    ensures r.totalFare == r.baseFare + r.distanceFare
  {
    var baseFare := Tariff.flatRate;
    var distanceFare :=
      if distance > Tariff.baseDistance then Ceil(distance - Tariff.baseDistance) * Tariff.perKmRate else 0;
    var totalFare := Max(baseFare + distanceFare, Tariff.minimumFare);
    FareCalculationResult(distance, baseFare, distanceFare, totalFare)
  }

  /** 5 km: three started kilometres beyond the free two, 450 + 500 = 950. */
  lemma FareExample()
    ensures CalculateFare(5.0) == FareCalculationResult(5.0, 500, 450, 950)
    ensures CalculateFare(2.0).totalFare == 500 && CalculateFare(2.01).totalFare == 650
  {
  }

  /** A longer trip never has a smaller fare. */
  lemma FareMonotone(d1: real, d2: real)
    requires d1 <= d2
    ensures CalculateFare(d1).totalFare <= CalculateFare(d2).totalFare
  {
    if d1 > Tariff.baseDistance {
      assert Ceil(d1 - 2.0) <= Ceil(d2 - 2.0) by {
        CeilLeast(d1 - 2.0, Ceil(d2 - 2.0));
      }
    }
  }

  // ---------------------------------------------------------------------------
  // Nearest runner
  // ---------------------------------------------------------------------------

  /** The distance from `target` to runner `k`'s current location. */
  function DistanceTo(target: Location, runners: seq<Runner>, k: nat,
                      calculateDistance: (Location, Location) -> real): real
    requires k < |runners|
  {
    calculateDistance(target, runners[k].currentLocation)
  }

  /** Among the first `n` runners, runner `k` is nearest to `target` and no
      earlier runner is as near. */
  predicate IsFirstNearestAmong(target: Location, runners: seq<Runner>, n: nat, k: nat,
                                calculateDistance: (Location, Location) -> real)
  {
    n <= |runners| && k < n &&
    (forall j :: 0 <= j < n ==>
       DistanceTo(target, runners, k, calculateDistance) <= DistanceTo(target, runners, j, calculateDistance)) &&
    (forall j :: 0 <= j < k ==>
       DistanceTo(target, runners, j, calculateDistance) > DistanceTo(target, runners, k, calculateDistance))
  }

  /** Runner `k` is nearest to `target` and no earlier runner is as near. */
  predicate IsFirstNearest(target: Location, runners: seq<Runner>, k: nat,
                           calculateDistance: (Location, Location) -> real)
  {
    IsFirstNearestAmong(target, runners, |runners|, k, calculateDistance)
  }

  /** The index the scan settles on after looking at the first `n` runners. */
  function FirstNearestIndex(target: Location, runners: seq<Runner>, n: nat,
                             calculateDistance: (Location, Location) -> real): (k: nat)
    requires 1 <= n <= |runners|
    ensures IsFirstNearestAmong(target, runners, n, k, calculateDistance)
    decreases n
  {
    if n == 1 then 0
    else
      var k := FirstNearestIndex(target, runners, n - 1, calculateDistance);
      if DistanceTo(target, runners, n - 1, calculateDistance) < DistanceTo(target, runners, k, calculateDistance)
      then n - 1 else k
  }

  /** `findNearestRunner` as a value: nothing for an empty list, otherwise the
      first runner among the nearest. */
  function NearestRunner(target: Location, runners: seq<Runner>,
                         calculateDistance: (Location, Location) -> real): (r: Option<Runner>)
    ensures r.None? <==> |runners| == 0
    ensures |runners| == 1 ==> r == Some(runners[0])
    ensures r.Some? ==> exists k: nat :: IsFirstNearest(target, runners, k, calculateDistance) && runners[k] == r.value
  {
    if |runners| == 0 then None
    else
      Some(runners[FirstNearestIndex(target, runners, |runners|, calculateDistance)])
  }

  /** `findNearestRunner`: a linear scan keeping the nearest runner so far and
      replacing it only on a strictly shorter distance, so that ties go to the
      earliest runner. */
  method FindNearestRunner(targetLocation: Location, availableRunners: seq<Runner>,
                           calculateDistance: (Location, Location) -> real) returns (nearest: Option<Runner>)
    ensures nearest == NearestRunner(targetLocation, availableRunners, calculateDistance)
    ensures nearest.None? <==> |availableRunners| == 0
    ensures nearest.Some? ==> exists k: nat :: IsFirstNearest(targetLocation, availableRunners, k, calculateDistance) &&
                                          availableRunners[k] == nearest.value
  {
    if |availableRunners| == 0 {
      return None;
    }
    var nearestRunner := availableRunners[0];
    var shortestDistance := calculateDistance(targetLocation, nearestRunner.currentLocation);
    ghost var k := 0;
    for i := 1 to |availableRunners|
      invariant k == FirstNearestIndex(targetLocation, availableRunners, i, calculateDistance)
      invariant nearestRunner == availableRunners[k]
      invariant shortestDistance == DistanceTo(targetLocation, availableRunners, k, calculateDistance)
    {
      var runner := availableRunners[i];
      var distance := calculateDistance(targetLocation, runner.currentLocation);
      if distance < shortestDistance {
        shortestDistance := distance;
        nearestRunner := runner;
        k := i;
      }
    }
    return Some(nearestRunner);
  }

  // ---------------------------------------------------------------------------
  // Delivery time
  // ---------------------------------------------------------------------------

  /** `estimateDeliveryTime`: minutes at 20 km/h plus 10 for pickup, rounded
      up, i.e. the least whole number of minutes at or above `3d + 10`. */
  function EstimateDeliveryTime(distance: real): (minutes: int)
    ensures distance * 3.0 + 10.0 <= minutes as real < distance * 3.0 + 11.0
    ensures distance >= 0.0 ==> minutes >= 10
  {
    var travelTimeMinutes := (distance / 20.0) * 60.0;
    var pickupTime := 10.0;
    Ceil(travelTimeMinutes + pickupTime)
  }

  // ---------------------------------------------------------------------------
  // Validators
  // ---------------------------------------------------------------------------

  predicate IsDigit(c: char) {
    '0' <= c <= '9'
  }

  /** The part after the country or trunk prefix: an operator digit 7, 8 or 9,
      a network digit 0 or 1, then exactly eight digits. */
  predicate IsNationalNumber(s: string) {
    |s| == 10 && s[0] in "789" && s[1] in "01" && forall i :: 2 <= i < 10 ==> IsDigit(s[i])
  }

  /** `validatePhoneNumber`: the whole string matches `^(\+234|0)[789][01]\d{8}$`. */
  predicate ValidatePhoneNumber(phone: string): (ok: bool)
    ensures ok ==> (|phone| == 14 && phone[..4] == "+234") || (|phone| == 11 && phone[0] == '0')
  {
    (|phone| >= 4 && phone[..4] == "+234" && IsNationalNumber(phone[4..])) ||
    (|phone| >= 1 && phone[0] == '0' && IsNationalNumber(phone[1..]))
  }

  /** Every string of the pattern's shape is accepted. */
  lemma PhoneNumberAccepted(prefix: string, operator: char, network: char, subscriber: string)
    requires prefix == "+234" || prefix == "0"
    requires operator in "789" && network in "01"
    requires |subscriber| == 8 && forall i :: 0 <= i < 8 ==> IsDigit(subscriber[i])
    ensures ValidatePhoneNumber(prefix + [operator, network] + subscriber)
  {
    var phone := prefix + [operator, network] + subscriber;
    assert phone[|prefix|..] == [operator, network] + subscriber;
    if prefix == "+234" {
      assert phone[..4] == "+234";
    }
  }

  /** Only 11-character (`0...`) and 14-character (`+234...`) strings are accepted. */
  lemma PhoneNumberLength(phone: string)
    requires ValidatePhoneNumber(phone)
    ensures (|phone| == 14 && phone[..4] == "+234") || (|phone| == 11 && phone[0] == '0')
    ensures forall i :: 1 <= i < |phone| ==> IsDigit(phone[i])
  {
  }

  /** The converse of `PhoneNumberAccepted`: an accepted number is a prefix,
      an operator digit 7, 8 or 9, a network digit 0 or 1 and eight digits. */
  lemma PhoneNumberShape(phone: string)
    requires ValidatePhoneNumber(phone)
    ensures exists prefix, op, net, sub :: (prefix == "+234" || prefix == "0") && op in "789" && net in "01" &&
              |sub| == 8 && (forall i :: 0 <= i < 8 ==> IsDigit(sub[i])) && phone == prefix + [op, net] + sub
  {
    var k := if |phone| >= 4 && phone[..4] == "+234" && IsNationalNumber(phone[4..]) then 4 else 1;
    var prefix, national := phone[..k], phone[k..];
    var sub := national[2..];
    assert forall i :: 0 <= i < 8 ==> sub[i] == national[i + 2];
    assert phone == prefix + [national[0], national[1]] + sub;
  }

  /** A character `[^\s@]` matches: neither whitespace nor `@`. */
  predicate IsAddressChar(c: char) {
    !Strings.IsWhitespace(c) && c != '@'
  }

  predicate AllAddressChars(s: string) {
    forall i :: 0 <= i < |s| ==> IsAddressChar(s[i])
  }

  /** `[^\s@]+\.[^\s@]+$`: no whitespace or `@`, and a dot with at least one
      character on each side. */
  predicate IsDomainPart(s: string) {
    AllAddressChars(s) && exists k :: 0 < k < |s| - 1 && s[k] == '.'
  }

  /** `validateEmail`: the whole string matches `^[^\s@]+@[^\s@]+\.[^\s@]+$`.
      The local part cannot contain `@`, so the `@` of a match is the first. */
  predicate ValidateEmail(email: string): (ok: bool)
    ensures ok ==> '@' in email && 0 < Strings.IndexOf(email, '@') < |email| - 3
  {
    '@' in email &&
    var at := Strings.IndexOf(email, '@');
    at > 0 && AllAddressChars(email[..at]) && IsDomainPart(email[at + 1..])
  }

  /** Every `local@domain.tld` with non-empty whitespace- and `@`-free parts is
      accepted (the parts may themselves contain dots). */
  lemma EmailAccepted(local: string, domain: string, tld: string)
    requires |local| > 0 && |domain| > 0 && |tld| > 0
    requires AllAddressChars(local) && AllAddressChars(domain) && AllAddressChars(tld)
    ensures ValidateEmail(local + "@" + domain + "." + tld)
  {
    var email := local + "@" + domain + "." + tld;
    assert email[|local|] == '@';
    var at := Strings.IndexOf(email, '@');
    assert at == |local|;
    assert email[..at] == local;
    var rest := email[at + 1..];
    assert rest == domain + "." + tld;
    assert rest[|domain|] == '.';
  }

  /** The converse of `EmailAccepted`: an accepted address splits into
      non-empty whitespace- and `@`-free parts `local@domain.tld`. */
  lemma EmailParts(email: string)
    requires ValidateEmail(email)
    ensures exists local, domain, tld :: |local| > 0 && |domain| > 0 && |tld| > 0 &&
              AllAddressChars(local) && AllAddressChars(domain) && AllAddressChars(tld) &&
              email == local + "@" + domain + "." + tld
  {
    var at := Strings.IndexOf(email, '@');
    var local, rest := email[..at], email[at + 1..];
    var k :| 0 < k < |rest| - 1 && rest[k] == '.';
    var domain, tld := rest[..k], rest[k + 1..];
    assert AllAddressChars(domain) by {
      forall i | 0 <= i < |domain| ensures IsAddressChar(domain[i]) { assert domain[i] == rest[i]; }
    }
    assert AllAddressChars(tld) by {
      forall i | 0 <= i < |tld| ensures IsAddressChar(tld[i]) { assert tld[i] == rest[k + 1 + i]; }
    }
    assert rest == domain + "." + tld;
    assert email == local + "@" + domain + "." + tld by {
      assert email == local + "@" + rest;
    }
  }

  /** An accepted address has exactly one `@` and no whitespace. */
  lemma EmailShape(email: string)
    requires ValidateEmail(email)
    ensures forall i :: 0 <= i < |email| ==> !Strings.IsWhitespace(email[i])
    ensures forall i, j :: 0 <= i < |email| && 0 <= j < |email| && email[i] == '@' && email[j] == '@' ==> i == j
  {
    var at := Strings.IndexOf(email, '@');
    forall i | 0 <= i < |email|
      ensures IsAddressChar(email[i]) || i == at
    {
      if i < at {
        assert email[i] == email[..at][i];
      } else if i > at {
        assert email[i] == email[at + 1..][i - at - 1];
      }
    }
  }
}
