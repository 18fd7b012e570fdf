/**
 Resolution of a stored selector to one attached USB device, without ever
 guessing between devices.
 */
module UsbSelector {
  import opened Basics

  datatype Selector = Selector(
    legacyName: string, vendor: Option<nat>, product: Option<nat>, serial: Option<string>)

  datatype Candidate = Candidate(
    name: string, vendor: nat, product: nat, serial: Option<string>, permitted: bool)

  datatype Error = NotFound | Ambiguous(matches: nat) | PermissionRequired(name: string)

  datatype Resolution = Resolved(candidate: Candidate, learned: Selector) | Unresolved(error: Error)

  // The tests the candidate lists are filtered by.
  datatype Test =
    | ByName(name: string)
    | ByProduct(vendor: nat, product: nat)
    | BySerial(serial: string)
    | Unreadable
    | Both(first: Test, second: Test)

  predicate Passes(test: Test, c: Candidate) {
    match test
    case ByName(name) => c.name == name
    case ByProduct(vendor, product) => c.vendor == vendor && c.product == product
    case BySerial(serial) => c.serial == Some(serial)
    case Unreadable => !c.permitted && c.serial.None?
    case Both(first, second) => Passes(first, c) && Passes(second, c)
  }

  function Filter(test: Test, candidates: seq<Candidate>): seq<Candidate> {
    if candidates == [] then []
    else (if Passes(test, candidates[0]) then [candidates[0]] else []) + Filter(test, candidates[1..])
  }

  function Learn(c: Candidate): Selector {
    Selector(c.name, Some(c.vendor), Some(c.product), c.serial)
  }

  function Choose(matches: seq<Candidate>): Resolution {
    if matches == [] then Unresolved(NotFound)
    else if |matches| != 1 then Unresolved(Ambiguous(|matches|))
    else if !matches[0].permitted then Unresolved(PermissionRequired(matches[0].name))
    else Resolved(matches[0], Learn(matches[0]))
  }

  function Resolve(selector: Selector, candidates: seq<Candidate>): Resolution {
    if selector.vendor.None? || selector.product.None? then
      Choose(Filter(ByName(selector.legacyName), candidates))
    else
      var products := Filter(ByProduct(selector.vendor.value, selector.product.value), candidates);
      if selector.serial.None? then Choose(products)
      else
        var exact := Filter(BySerial(selector.serial.value), products);
        if exact != [] then Choose(exact)
        else
          var unreadable := Filter(Unreadable, products);
          if |unreadable| == 1 then Unresolved(PermissionRequired(unreadable[0].name))
          else if unreadable == [] then Choose([])
          else Unresolved(Ambiguous(|unreadable|))
  }

  // The test a selector stands for.
  function Meaning(selector: Selector): Test {
    if selector.vendor.None? || selector.product.None? then ByName(selector.legacyName)
    else
      var product := ByProduct(selector.vendor.value, selector.product.value);
      if selector.serial.None? then product else Both(product, BySerial(selector.serial.value))
  }

  // ---------------------------------------------------------------------
  // Enumeration order
  // ---------------------------------------------------------------------

  lemma {:induction false} FilterCount(test: Test, candidates: seq<Candidate>, c: Candidate)
    ensures multiset(Filter(test, candidates))[c] == if Passes(test, c) then multiset(candidates)[c] else 0
  {
    if candidates != [] {
      FilterCount(test, candidates[1..], c);
      assert candidates == [candidates[0]] + candidates[1..];
    }
  }

  lemma FilterReordered(test: Test, a: seq<Candidate>, b: seq<Candidate>)
    requires multiset(a) == multiset(b)
    ensures multiset(Filter(test, a)) == multiset(Filter(test, b))
    ensures |Filter(test, a)| == |Filter(test, b)|
    ensures |Filter(test, a)| == 1 ==> Filter(test, a) == Filter(test, b)
    ensures Choose(Filter(test, a)) == Choose(Filter(test, b))
  {
    var fa, fb := Filter(test, a), Filter(test, b);
    forall c: Candidate
      ensures multiset(fa)[c] == multiset(fb)[c]
    {
      FilterCount(test, a, c);
      FilterCount(test, b, c);
    }
    assert multiset(fa) == multiset(fb);
    assert |multiset(fa)| == |fa| && |multiset(fb)| == |fb|;
    if |fa| == 1 {
      SingletonsAgree(fa, fb);
    }
  }

  lemma SingletonsAgree(a: seq<Candidate>, b: seq<Candidate>)
    requires |a| == 1 && |b| == 1 && multiset(a) == multiset(b)
    ensures a == b
  {
    assert a[0] in multiset(a);
    assert a[0] in b;
  }

  /** The outcome, success or error, does not depend on enumeration order. */
  lemma ResolveIgnoresOrder(selector: Selector, a: seq<Candidate>, b: seq<Candidate>)
    requires multiset(a) == multiset(b)
    ensures Resolve(selector, a) == Resolve(selector, b)
  {
    if selector.vendor.None? || selector.product.None? {
      FilterReordered(ByName(selector.legacyName), a, b);
    } else {
      var product := ByProduct(selector.vendor.value, selector.product.value);
      FilterReordered(product, a, b);
      if selector.serial.Some? {
        FilterReordered(BySerial(selector.serial.value), Filter(product, a), Filter(product, b));
        FilterReordered(Unreadable, Filter(product, a), Filter(product, b));
      }
    }
  }

  // ---------------------------------------------------------------------
  // Unique, permitted matches
  // ---------------------------------------------------------------------

  lemma {:induction false} FilterTwice(first: Test, second: Test, candidates: seq<Candidate>)
    ensures Filter(second, Filter(first, candidates)) == Filter(Both(first, second), candidates)
  {
    if candidates != [] {
      FilterTwice(first, second, candidates[1..]);
      var rest := Filter(first, candidates[1..]);
      if Passes(first, candidates[0]) {
        assert Filter(first, candidates) == [candidates[0]] + rest;
        assert ([candidates[0]] + rest)[1..] == rest;
      } else {
        assert Filter(first, candidates) == rest;
      }
    }
  }

  // ---------------------------------------------------------------------
  // What a selector says of a device
  // ---------------------------------------------------------------------

  // By its path while no product identity is known, and afterwards by its product
  // identity and any learned serial.
  predicate Describes(selector: Selector, c: Candidate) {
    if selector.vendor == None || selector.product == None then c.name == selector.legacyName
    else
      && selector.vendor == Some(c.vendor) && selector.product == Some(c.product)
      && (selector.serial == None || selector.serial == c.serial)
  }

  // A device of the right product whose serial cannot be read for want of permission.
  predicate MightBe(selector: Selector, c: Candidate) {
    && selector.vendor == Some(c.vendor) && selector.product == Some(c.product) && selector.serial != None
    && c.serial == None && !c.permitted
  }

  function CountDescribed(selector: Selector, candidates: seq<Candidate>): nat {
    if candidates == [] then 0
    else (if Describes(selector, candidates[0]) then 1 else 0) + CountDescribed(selector, candidates[1..])
  }

  function CountMightBe(selector: Selector, candidates: seq<Candidate>): nat {
    if candidates == [] then 0
    else (if MightBe(selector, candidates[0]) then 1 else 0) + CountMightBe(selector, candidates[1..])
  }

  ghost predicate OnlyDescribed(selector: Selector, candidates: seq<Candidate>, c: Candidate) {
    c in candidates && Describes(selector, c) && CountDescribed(selector, candidates) == 1
  }

  ghost predicate OnlyMightBe(selector: Selector, candidates: seq<Candidate>, c: Candidate) {
    c in candidates && MightBe(selector, c) && CountMightBe(selector, candidates) == 1
  }

  // A device of the selector's product whose serial is out of reach.
  function Suspect(selector: Selector): Test
    requires selector.vendor.Some? && selector.product.Some?
  {
    Both(ByProduct(selector.vendor.value, selector.product.value), Unreadable)
  }

  lemma PassesDescribed(selector: Selector, c: Candidate)
    ensures Passes(Meaning(selector), c) <==> Describes(selector, c)
    ensures selector.vendor.Some? && selector.product.Some? && selector.serial.Some? ==>
              (Passes(Suspect(selector), c) <==> MightBe(selector, c))
  {
    if selector.vendor.Some? && selector.product.Some? && selector.serial.Some? {
      var product, serial := ByProduct(selector.vendor.value, selector.product.value), BySerial(selector.serial.value);
      assert Passes(Both(product, serial), c) == (Passes(product, c) && Passes(serial, c));
      assert Passes(Both(product, Unreadable), c) == (Passes(product, c) && Passes(Unreadable, c));
    }
  }

  lemma {:induction false} FilterDescribed(selector: Selector, candidates: seq<Candidate>)
    ensures |Filter(Meaning(selector), candidates)| == CountDescribed(selector, candidates)
  {
    if candidates != [] {
      PassesDescribed(selector, candidates[0]);
      FilterDescribed(selector, candidates[1..]);
    }
  }

  lemma {:induction false} FilterSuspects(selector: Selector, candidates: seq<Candidate>)
    requires selector.vendor.Some? && selector.product.Some? && selector.serial.Some?
    ensures |Filter(Suspect(selector), candidates)| == CountMightBe(selector, candidates)
  {
    if candidates != [] {
      PassesDescribed(selector, candidates[0]);
      FilterSuspects(selector, candidates[1..]);
    }
  }

  lemma {:induction false} NoSuspects(selector: Selector, candidates: seq<Candidate>)
    requires selector.vendor.None? || selector.product.None? || selector.serial.None?
    ensures CountMightBe(selector, candidates) == 0
  {
    if candidates != [] {
      NoSuspects(selector, candidates[1..]);
    }
  }

  lemma {:induction false} FilterMembers(test: Test, candidates: seq<Candidate>, c: Candidate)
    ensures c in Filter(test, candidates) <==> c in candidates && Passes(test, c)
  {
    if candidates != [] {
      FilterMembers(test, candidates[1..], c);
      assert c in candidates <==> c == candidates[0] || c in candidates[1..];
    }
  }

  // A list of one element is decided by that element.
  lemma SingletonIff(test: Test, candidates: seq<Candidate>, c: Candidate)
    ensures Filter(test, candidates) == [c] <==>
            |Filter(test, candidates)| == 1 && c in candidates && Passes(test, c)
  {
    FilterMembers(test, candidates, c);
  }

  // Resolution by the two lists it comes down to.
  lemma ResolveByLists(selector: Selector, candidates: seq<Candidate>)
    ensures var exact := Filter(Meaning(selector), candidates);
            Resolve(selector, candidates) ==
            if exact != [] || selector.vendor.None? || selector.product.None? || selector.serial.None? then Choose(exact)
            else
              var suspects := Filter(Suspect(selector), candidates);
              if |suspects| == 1 then Unresolved(PermissionRequired(suspects[0].name))
              else if suspects == [] then Unresolved(NotFound)
              else Unresolved(Ambiguous(|suspects|))
  {
    if selector.vendor.Some? && selector.product.Some? && selector.serial.Some? {
      var product := ByProduct(selector.vendor.value, selector.product.value);
      FilterTwice(product, BySerial(selector.serial.value), candidates);
      FilterTwice(product, Unreadable, candidates);
    }
  }

  /** Resolution succeeds exactly when one attached device is described by the
      selector and that one is permitted, and then returns it with a selector of its
      path, product identity and serial. */
  lemma ResolvesIff(selector: Selector, candidates: seq<Candidate>, c: Candidate)
    ensures Resolve(selector, candidates) == Resolved(c, Selector(c.name, Some(c.vendor), Some(c.product), c.serial)) <==>
            OnlyDescribed(selector, candidates, c) && c.permitted
    ensures Resolve(selector, candidates).Resolved? ==>
            var found := Resolve(selector, candidates).candidate;
            Resolve(selector, candidates).learned == Selector(found.name, Some(found.vendor), Some(found.product), found.serial)
  {
    ResolveByLists(selector, candidates);
    SingletonIff(Meaning(selector), candidates, c);
    PassesDescribed(selector, c);
    FilterDescribed(selector, candidates);
  }

  /** Every other outcome has its cause. Nothing is found if no device is described or
      might be meant; more than one is ambiguous, with their number; and a single
      one that lacks permission is named. Devices that only might be meant are looked
      at when none is described. */
  lemma UnresolvedIff(selector: Selector, candidates: seq<Candidate>)
    ensures var r := Resolve(selector, candidates);
            var n, u := CountDescribed(selector, candidates), CountMightBe(selector, candidates);
            && (r == Unresolved(NotFound) <==> n == 0 && u == 0)
            && (forall k :: r == Unresolved(Ambiguous(k)) <==> (n > 1 && k == n) || (n == 0 && u > 1 && k == u))
            && (r.Unresolved? && r.error.PermissionRequired? <==>
                  (n == 1 && !r.Resolved?) || (n == 0 && u == 1))
  {
    ResolveByLists(selector, candidates);
    FilterDescribed(selector, candidates);
    if selector.vendor.Some? && selector.product.Some? && selector.serial.Some? {
      FilterSuspects(selector, candidates);
    } else {
      NoSuspects(selector, candidates);
    }
  }

  /** The device named as lacking permission is the one described, or else the one
      that might be meant. */
  lemma NamedDeviceLacksPermission(selector: Selector, candidates: seq<Candidate>, c: Candidate)
    requires (OnlyDescribed(selector, candidates, c) && !c.permitted)
          || (CountDescribed(selector, candidates) == 0 && OnlyMightBe(selector, candidates, c))
    ensures Resolve(selector, candidates) == Unresolved(PermissionRequired(c.name))
  {
    ResolveByLists(selector, candidates);
    FilterDescribed(selector, candidates);
    SingletonIff(Meaning(selector), candidates, c);
    PassesDescribed(selector, c);
    if MightBe(selector, c) {
      FilterSuspects(selector, candidates);
      SingletonIff(Suspect(selector), candidates, c);
    }
  }

  /** A selector learned from a device with a serial finds that device again in
      any later list where its vendor, product and serial are unique and
      permitted, whatever its path has become. */
  lemma LearnedSelectorIsStable(selector: Selector, first: seq<Candidate>, later: seq<Candidate>, moved: Candidate)
    requires Resolve(selector, first).Resolved?
    requires var was := Resolve(selector, first).candidate;
             && was.serial.Some? && moved.vendor == was.vendor && moved.product == was.product && moved.serial == was.serial
             && OnlyDescribed(Selector(was.name, Some(was.vendor), Some(was.product), was.serial), later, moved)
    requires moved.permitted
    ensures Resolve(Resolve(selector, first).learned, later).Resolved?
    ensures Resolve(Resolve(selector, first).learned, later).candidate == moved
  {
    ResolvesIff(selector, first, Resolve(selector, first).candidate);
    ResolvesIff(Resolve(selector, first).learned, later, moved);
  }
}
