/**
 The handle and name caches of the C++ ambassador. Object and interaction classes are looked
 up by name alone (scope 0); attributes and parameters within the scope of their class, and
 their reverse entries are keyed by the decimal text of the handle. `Enc` stands for either
 kind of reverse key.
 */
module HandleCaches {
  import opened Outcomes

  // --- Decimal keys -------------------------------------------------------------------------

  function Digit(d: nat): char
    requires d < 10
  {
    "0123456789"[d]
  }

  /** `std::to_string`. */
  function Decimal(n: nat): string {
    if n < 10 then [Digit(n)] else Decimal(n / 10) + [Digit(n % 10)]
  }

  lemma DigitInjective(a: nat, b: nat)
    requires a < 10 && b < 10 && Digit(a) == Digit(b)
    ensures a == b
  {
    var s := "0123456789";
    assert forall i, j :: 0 <= i < j < 10 ==> s[i] != s[j];
  }

  lemma {:induction false} DecimalInjective(a: nat, b: nat)
    requires Decimal(a) == Decimal(b)
    ensures a == b
    decreases a + b
  {
    DecimalNonEmpty(a / 10);
    DecimalNonEmpty(b / 10);
    var s, t := Decimal(a), Decimal(b);
    assert s[|s| - 1] == Digit(a % 10) && t[|t| - 1] == Digit(b % 10);
    DigitInjective(a % 10, b % 10);
    if a >= 10 && b >= 10 {
      assert Decimal(a / 10) == s[..|s| - 1] && Decimal(b / 10) == t[..|t| - 1];
      DecimalInjective(a / 10, b / 10);
    }
  }

  lemma {:induction false} DecimalNonEmpty(n: nat)
    ensures Decimal(n) != []
  {}

  ghost predicate Injective<R(!new)>(enc: nat -> R) {
    forall a, b :: enc(a) == enc(b) ==> a == b
  }

  /** Class caches are keyed by the handle itself. */
  function Raw(h: nat): nat { h }

  /** Both kinds of reverse key tell handles apart. */
  lemma KeysInjective()
    ensures Injective(Decimal) && Injective(Raw)
  {
    forall a, b | Decimal(a) == Decimal(b) ensures a == b { DecimalInjective(a, b); }
  }

  // --- The server's directory ---------------------------------------------------------------

  /** Names that the server accepts, and the one name it gives back. Classes also answer to
      names without the root and to local names, so several names can have one handle. */
  datatype Directory = Directory(handleOf: map<(nat, string), nat>, nameOf: map<(nat, nat), string>)

  ghost predicate Coherent(d: Directory) {
    && (forall k :: k in d.handleOf ==> (k.0, d.handleOf[k]) in d.nameOf)
    && (forall k :: k in d.nameOf ==> (k.0, d.nameOf[k]) in d.handleOf && d.handleOf[(k.0, d.nameOf[k])] == k.1)
  }

  ghost predicate SingleNames(d: Directory) {
    forall k :: k in d.handleOf && (k.0, d.handleOf[k]) in d.nameOf ==> d.nameOf[(k.0, d.handleOf[k])] == k.1
  }

  function ServerHandle(d: Option<Directory>, scope: nat, name: string): Result<nat> {
    if d.Some? && (scope, name) in d.value.handleOf then Ok(d.value.handleOf[(scope, name)]) else Error
  }

  function ServerName(d: Option<Directory>, scope: nat, handle: nat): Result<string> {
    if d.Some? && (scope, handle) in d.value.nameOf then Ok(d.value.nameOf[(scope, handle)]) else Error
  }

  // --- The cache ----------------------------------------------------------------------------

  datatype Cache<R(==)> = Cache(byName: map<(nat, string), nat>, byHandle: map<(nat, R), string>)

  function Filled<R>(c: Cache<R>, enc: nat -> R, scope: nat, name: string, handle: nat): Cache<R> {
    Cache(c.byName[(scope, name) := handle], c.byHandle[(scope, enc(handle)) := name])
  }

  /** `getObjectClassHandle` and its three siblings. The directory is absent when the ambassador
      has no federation to ask about. */
  function GetHandle<R>(c: Cache<R>, enc: nat -> R, d: Option<Directory>, scope: nat, name: string)
    : (Cache<R>, Result<nat>)
  {
    if (scope, name) in c.byName then (c, Ok(c.byName[(scope, name)]))
    else
      var answer := ServerHandle(d, scope, name);
      if answer.Error? then (c, Error) else (Filled(c, enc, scope, name, answer.value), answer)
  }

  /** `getObjectClassName` and its three siblings. */
  function GetName<R>(c: Cache<R>, enc: nat -> R, d: Option<Directory>, scope: nat, handle: nat)
    : (Cache<R>, Result<string>)
  {
    if (scope, enc(handle)) in c.byHandle then (c, Ok(c.byHandle[(scope, enc(handle))]))
    else
      var answer := ServerName(d, scope, handle);
      if answer.Error? then (c, Error) else (Filled(c, enc, scope, answer.value, handle), answer)
  }

  // --- Agreement ----------------------------------------------------------------------------

  /** Every forward entry is the server's answer; every reverse entry is a name of its handle, and
      the forward map sends that name back to the handle. */
  ghost predicate Agrees<R(!new)>(c: Cache<R>, enc: nat -> R, d: Option<Directory>) {
    && (forall s: nat, n: string :: (s, n) in c.byName ==> ServerHandle(d, s, n) == Ok(c.byName[(s, n)]))
    && (forall s: nat, h: nat :: (s, enc(h)) in c.byHandle ==>
          var n := c.byHandle[(s, enc(h))];
          (s, n) in c.byName && c.byName[(s, n)] == h)
  }

  lemma FilledAgrees<R(!new)>(c: Cache<R>, enc: nat -> R, d: Option<Directory>, scope: nat, name: string, handle: nat)
    requires Injective(enc) && Agrees(c, enc, d) && ServerHandle(d, scope, name) == Ok(handle)
    ensures Agrees(Filled(c, enc, scope, name, handle), enc, d)
  {
    var c' := Filled(c, enc, scope, name, handle);
    forall s: nat, h: nat | (s, enc(h)) in c'.byHandle
      ensures (s, c'.byHandle[(s, enc(h))]) in c'.byName && c'.byName[(s, c'.byHandle[(s, enc(h))])] == h
    {
      if (s, enc(h)) != (scope, enc(handle)) {
        assert (s, enc(h)) in c.byHandle;
        var n := c.byHandle[(s, enc(h))];
        assert c.byName[(s, n)] == h && ServerHandle(d, s, n) == Ok(h);
      }
    }
  }

  /** A handle lookup answers as the server would, cached or not. */
  lemma HandleAnswer<R(!new)>(c: Cache<R>, enc: nat -> R, d: Option<Directory>, scope: nat, name: string)
    requires Injective(enc) && Agrees(c, enc, d)
    ensures GetHandle(c, enc, d, scope, name).1 == ServerHandle(d, scope, name)
    ensures Agrees(GetHandle(c, enc, d, scope, name).0, enc, d)
  {
    var answer := ServerHandle(d, scope, name);
    if (scope, name) !in c.byName && answer.Ok? {
      FilledAgrees(c, enc, d, scope, name, answer.value);
    }
  }

  /** A name lookup fails when the server's would, and otherwise gives a name that the server
      resolves to the handle: its own answer, if no handle has two names. */
  lemma NameAnswer<R(!new)>(c: Cache<R>, enc: nat -> R, d: Option<Directory>, scope: nat, handle: nat)
    requires Injective(enc) && Agrees(c, enc, d) && (d.Some? ==> Coherent(d.value))
    ensures var r := GetName(c, enc, d, scope, handle).1;
            && (r.Ok? <==> ServerName(d, scope, handle).Ok?)
            && (r.Ok? ==> ServerHandle(d, scope, r.value) == Ok(handle))
            && (d.Some? && SingleNames(d.value) ==> r == ServerName(d, scope, handle))
    ensures Agrees(GetName(c, enc, d, scope, handle).0, enc, d)
  {
    var answer := ServerName(d, scope, handle);
    if (scope, enc(handle)) in c.byHandle {
      var n := c.byHandle[(scope, enc(handle))];
      assert (scope, n) in c.byName;
    } else if answer.Ok? {
      assert (scope, handle) in d.value.nameOf;
      FilledAgrees(c, enc, d, scope, answer.value, handle);
    }
  }

  /** What was found once is found again without the server, in both directions and unchanged. */
  lemma HandleRemembered<R(!new)>(c: Cache<R>, enc: nat -> R, d: Option<Directory>, scope: nat, name: string, later: Option<Directory>)
    requires GetHandle(c, enc, d, scope, name).1.Ok?
    ensures var (c', r) := GetHandle(c, enc, d, scope, name);
            && GetHandle(c', enc, later, scope, name) == (c', r)
            && ((scope, name) !in c.byName ==> GetName(c', enc, later, scope, r.value) == (c', Ok(name)))
  {}

  lemma NameRemembered<R(!new)>(c: Cache<R>, enc: nat -> R, d: Option<Directory>, scope: nat, handle: nat, later: Option<Directory>)
    requires GetName(c, enc, d, scope, handle).1.Ok?
    ensures var (c', r) := GetName(c, enc, d, scope, handle);
            && GetName(c', enc, later, scope, handle) == (c', r)
            && ((scope, enc(handle)) !in c.byHandle ==> GetHandle(c', enc, later, scope, r.value) == (c', Ok(handle)))
  {}

  // --- Runs of lookups ----------------------------------------------------------------------

  datatype Lookup = ForHandle(scope: nat, name: string) | ForName(scope: nat, handle: nat)

  ghost function After<R>(c: Cache<R>, enc: nat -> R, d: Option<Directory>, run: seq<Lookup>): Cache<R>
    decreases |run|
  {
    if run == [] then c
    else
      var l := run[0];
      After(if l.ForHandle? then GetHandle(c, enc, d, l.scope, l.name).0 else GetName(c, enc, d, l.scope, l.handle).0,
            enc, d, run[1..])
  }

  lemma {:induction false} RunAgrees<R(!new)>(c: Cache<R>, enc: nat -> R, d: Option<Directory>, run: seq<Lookup>)
    requires Injective(enc) && Agrees(c, enc, d) && (d.Some? ==> Coherent(d.value))
    ensures Agrees(After(c, enc, d, run), enc, d)
    decreases |run|
  {
    if run != [] {
      var l := run[0];
      if l.ForHandle? {
        HandleAnswer(c, enc, d, l.scope, l.name);
        RunAgrees(GetHandle(c, enc, d, l.scope, l.name).0, enc, d, run[1..]);
      } else {
        NameAnswer(c, enc, d, l.scope, l.handle);
        RunAgrees(GetName(c, enc, d, l.scope, l.handle).0, enc, d, run[1..]);
      }
    }
  }

  /** Whatever was looked up before, the ambassador names this handle as the server does. */
  ghost predicate AlwaysNamed<R(!new)>(enc: nat -> R, d: Directory) {
    forall run, scope, handle {:trigger GetName(After(Cache(map[], map[]), enc, Some(d), run), enc, Some(d), scope, handle)} ::
      GetName(After(Cache(map[], map[]), enc, Some(d), run), enc, Some(d), scope, handle).1 ==
      ServerName(Some(d), scope, handle)
  }

  /** Name answers agree with the server after every run of lookups exactly when the server gives
      every handle a single name. A lookup by an alias leaves the alias behind. */
  lemma NamesAgreeExactlyWhenSingle<R(!new)>(enc: nat -> R, d: Directory)
    requires Injective(enc) && Coherent(d)
    ensures AlwaysNamed(enc, d) <==> SingleNames(d)
  {
    var empty: Cache<R> := Cache(map[], map[]);
    if SingleNames(d) {
      forall run, scope, handle
        ensures GetName(After(empty, enc, Some(d), run), enc, Some(d), scope, handle).1 == ServerName(Some(d), scope, handle)
      {
        RunAgrees(empty, enc, Some(d), run);
        NameAnswer(After(empty, enc, Some(d), run), enc, Some(d), scope, handle);
      }
    }
    if AlwaysNamed(enc, d) {
      forall k | k in d.handleOf && (k.0, d.handleOf[k]) in d.nameOf
        ensures d.nameOf[(k.0, d.handleOf[k])] == k.1
      {
        AliasLeftBehind(enc, d, k.0, k.1);
      }
    }
  }

  lemma AliasLeftBehind<R(!new)>(enc: nat -> R, d: Directory, scope: nat, name: string)
    requires (scope, name) in d.handleOf && AlwaysNamed(enc, d)
    ensures ServerName(Some(d), scope, d.handleOf[(scope, name)]) == Ok(name)
  {
    var empty: Cache<R> := Cache(map[], map[]);
    var h := d.handleOf[(scope, name)];
    var run := [ForHandle(scope, name)];
    assert run[1..] == [];
    var filled := GetHandle(empty, enc, Some(d), scope, name).0;
    assert After(filled, enc, Some(d), []) == filled;
    var c := After(empty, enc, Some(d), run);
    assert c == filled;
    assert GetName(c, enc, Some(d), scope, h).1 == Ok(name);
  }

  /** A class that answers to its local name as well: looking it up by that name, and then asking for
      the name of its handle, gives the local name where the server gives the full one. */
  lemma AliasExample()
    ensures var d := Directory(map[(0, "HLAobjectRoot.Car") := 1, (0, "Car") := 1], map[(0, 1) := "HLAobjectRoot.Car"]);
            && Coherent(d) && !SingleNames(d)
            && GetName(After(Cache(map[], map[]), Raw, Some(d), [ForHandle(0, "Car")]), Raw, Some(d), 0, 1).1 == Ok("Car")
            && ServerName(Some(d), 0, 1) == Ok("HLAobjectRoot.Car")
  {
    var d := Directory(map[(0, "HLAobjectRoot.Car") := 1, (0, "Car") := 1], map[(0, 1) := "HLAobjectRoot.Car"]);
    var empty: Cache<nat> := Cache(map[], map[]);
    var filled := GetHandle(empty, Raw, Some(d), 0, "Car").0;
    assert (0, "Car") in d.handleOf && |"Car"| != |"HLAobjectRoot.Car"|;
    assert [ForHandle(0, "Car")][1..] == [];
    assert After(filled, Raw, Some(d), []) == filled;
    assert After(empty, Raw, Some(d), [ForHandle(0, "Car")]) == filled;
  }
}
