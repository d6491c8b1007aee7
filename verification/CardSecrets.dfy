/**
 The vault sanitizer of paypal_checkout/models.py against the independent detector of
 paypal_checkout/vault.py.

 A payload is a tree of dicts, lists and tuples.  JSON has no tuples; the detector looks
 into them, the sanitizer does not, and the theorems say exactly what that costs.
 */
module CardSecrets {

  datatype Value =
    | Scalar(text: string)
    | Dict(entries: seq<Entry>)
    | List(items: seq<Value>)
    | Tuple(members: seq<Value>)

  datatype Entry = Entry(key: string, value: Value)

  const SECRET_KEYS := {"number", "security_code", "card_number", "cvv", "cvv2"}

  function LowerChar(c: char): char {
    if 'A' <= c <= 'Z' then c - 'A' + 'a' else c
  }

  function Lower(s: string): string {
    seq(|s|, i requires 0 <= i < |s| => LowerChar(s[i]))
  }

  predicate IsSecretKey(key: string) {
    Lower(key) in SECRET_KEYS
  }

  // ---------- the sanitizer ----------

  function Sanitize(v: Value): Value {
    match v
    case Dict(entries) => Dict(SanitizeEntries(entries))
    case List(items) => List(SanitizeItems(items))
    case _ => v
  }

  function SanitizeEntries(entries: seq<Entry>): seq<Entry> {
    if entries == [] then []
    else if IsSecretKey(entries[0].key) then SanitizeEntries(entries[1..])
    else [Entry(entries[0].key, Sanitize(entries[0].value))] + SanitizeEntries(entries[1..])
  }

  function SanitizeItems(items: seq<Value>): seq<Value> {
    if items == [] then [] else [Sanitize(items[0])] + SanitizeItems(items[1..])
  }

  // ---------- the detector ----------

  predicate ContainsCardSecret(v: Value) {
    match v
    case Scalar(_) => false
    case Dict(entries) => exists i ::
      0 <= i < |entries| && (IsSecretKey(entries[i].key) || ContainsCardSecret(entries[i].value))
    case List(items) => exists i :: 0 <= i < |items| && ContainsCardSecret(items[i])
    case Tuple(members) => exists i :: 0 <= i < |members| && ContainsCardSecret(members[i])
  }

  /** A secret inside a tuple that no secret key on the way to it removes. */
  predicate SecretInTuple(v: Value) {
    match v
    case Scalar(_) => false
    case Dict(entries) => exists i ::
      0 <= i < |entries| && !IsSecretKey(entries[i].key) && SecretInTuple(entries[i].value)
    case List(items) => exists i :: 0 <= i < |items| && SecretInTuple(items[i])
    case Tuple(_) => ContainsCardSecret(v)
  }

  /** A tree as JSON decodes it: no tuples. */
  predicate IsJson(v: Value) {
    match v
    case Scalar(_) => true
    case Dict(entries) => forall i :: 0 <= i < |entries| ==> IsJson(entries[i].value)
    case List(items) => forall i :: 0 <= i < |items| ==> IsJson(items[i])
    case Tuple(_) => false
  }

  /** The positions whose entries the sanitizer keeps, in order. */
  lemma {:induction false} KeptEntries(entries: seq<Entry>)
    ensures forall e :: e in SanitizeEntries(entries) <==>
      exists i ::
        0 <= i < |entries| && !IsSecretKey(entries[i].key) && e == Entry(entries[i].key, Sanitize(entries[i].value))
  {
    if entries != [] {
      KeptEntries(entries[1..]);
      forall e | e in SanitizeEntries(entries)
        ensures exists i ::
          0 <= i < |entries| && !IsSecretKey(entries[i].key) && e == Entry(entries[i].key, Sanitize(entries[i].value))
      {
        if e in SanitizeEntries(entries[1..]) {
          var j :| 0 <= j < |entries[1..]| && !IsSecretKey(entries[1..][j].key)
            && e == Entry(entries[1..][j].key, Sanitize(entries[1..][j].value));
          assert entries[1..][j] == entries[j + 1];
        }
      }
      forall i | 0 <= i < |entries| && !IsSecretKey(entries[i].key)
        ensures Entry(entries[i].key, Sanitize(entries[i].value)) in SanitizeEntries(entries)
      {
        if i > 0 {
          assert entries[1..][i - 1] == entries[i];
        }
      }
    }
  }

  lemma {:induction false} KeptItems(items: seq<Value>)
    ensures |SanitizeItems(items)| == |items|
    ensures forall i :: 0 <= i < |items| ==> SanitizeItems(items)[i] == Sanitize(items[i])
  {
    if items != [] {
      KeptItems(items[1..]);
    }
  }

  /** After sanitizing, the detector finds a secret exactly where one hid in a tuple. */
  lemma {:induction false} SanitizedSecrets(v: Value)
    ensures ContainsCardSecret(Sanitize(v)) <==> SecretInTuple(v)
  {
    match v
    case Scalar(_) =>
    case Tuple(_) =>
    case List(items) =>
      KeptItems(items);
      forall i | 0 <= i < |items| ensures ContainsCardSecret(Sanitize(items[i])) <==> SecretInTuple(items[i]) {
        SanitizedSecrets(items[i]);
      }
    case Dict(entries) =>
      KeptEntries(entries);
      forall i | 0 <= i < |entries|
        ensures ContainsCardSecret(Sanitize(entries[i].value)) <==> SecretInTuple(entries[i].value) {
        SanitizedSecrets(entries[i].value);
      }
      var kept := SanitizeEntries(entries);
      if ContainsCardSecret(Sanitize(v)) {
        var k :| 0 <= k < |kept| && (IsSecretKey(kept[k].key) || ContainsCardSecret(kept[k].value));
        assert kept[k] in kept;
        var i :| 0 <= i < |entries| && !IsSecretKey(entries[i].key) &&
          kept[k] == Entry(entries[i].key, Sanitize(entries[i].value));
        assert SecretInTuple(entries[i].value);
      }
      if SecretInTuple(v) {
        var i :| 0 <= i < |entries| && !IsSecretKey(entries[i].key) && SecretInTuple(entries[i].value);
        var e := Entry(entries[i].key, Sanitize(entries[i].value));
        assert e in kept;
        var k :| 0 <= k < |kept| && kept[k] == e;
        assert ContainsCardSecret(kept[k].value);
      }
  }

  lemma {:induction false} JsonHidesNothing(v: Value)
    requires IsJson(v)
    ensures !SecretInTuple(v)
  {
    match v
    case Scalar(_) =>
    case List(items) =>
      forall i | 0 <= i < |items| ensures !SecretInTuple(items[i]) {
        JsonHidesNothing(items[i]);
      }
    case Dict(entries) =>
      forall i | 0 <= i < |entries| ensures !SecretInTuple(entries[i].value) {
        JsonHidesNothing(entries[i].value);
      }
  }

  /** No JSON payload leaves the sanitizer with a card secret the detector can find. */
  lemma SanitizedJsonIsSafe(v: Value)
    requires IsJson(v)
    ensures !ContainsCardSecret(Sanitize(v))
  {
    JsonHidesNothing(v);
    SanitizedSecrets(v);
  }

  // ---------- what the sanitizer leaves alone ----------

  /** A secret key that the sanitizer would reach, outside every tuple. */
  predicate SecretReached(v: Value) {
    match v
    case Dict(entries) => exists i ::
      0 <= i < |entries| && (IsSecretKey(entries[i].key) || SecretReached(entries[i].value))
    case List(items) => exists i :: 0 <= i < |items| && SecretReached(items[i])
    case _ => false
  }

  lemma {:induction false} EntriesUnchanged(entries: seq<Entry>)
    requires forall i :: 0 <= i < |entries| ==>
      (Sanitize(entries[i].value) == entries[i].value <==> !SecretReached(entries[i].value))
    ensures |SanitizeEntries(entries)| <= |entries|
    ensures SanitizeEntries(entries) == entries <==>
      forall i :: 0 <= i < |entries| ==> !IsSecretKey(entries[i].key) && !SecretReached(entries[i].value)
  {
    if entries != [] {
      EntriesUnchanged(entries[1..]);
      var rest := SanitizeEntries(entries[1..]);
      assert entries == [entries[0]] + entries[1..];
      if SanitizeEntries(entries) == entries {
        assert rest == SanitizeEntries(entries)[1..] == entries[1..];
        forall i | 0 <= i < |entries| ensures !IsSecretKey(entries[i].key) && !SecretReached(entries[i].value) {
          if i > 0 {
            assert entries[1..][i - 1] == entries[i];
          } else {
            assert SanitizeEntries(entries)[0] == entries[0];
          }
        }
      }
    }
  }

  /** The sanitizer returns the tree unchanged exactly when there is nothing it would remove. */
  lemma {:induction false} UnchangedIff(v: Value)
    ensures Sanitize(v) == v <==> !SecretReached(v)
  {
    match v
    case Scalar(_) =>
    case Tuple(_) =>
    case List(items) =>
      KeptItems(items);
      forall i | 0 <= i < |items| ensures Sanitize(items[i]) == items[i] <==> !SecretReached(items[i]) {
        UnchangedIff(items[i]);
      }
    case Dict(entries) =>
      forall i | 0 <= i < |entries|
        ensures Sanitize(entries[i].value) == entries[i].value <==> !SecretReached(entries[i].value)
      {
        UnchangedIff(entries[i].value);
      }
      EntriesUnchanged(entries);
  }

  lemma {:induction false} NothingLeftToRemove(v: Value)
    ensures !SecretReached(Sanitize(v))
  {
    match v
    case Scalar(_) =>
    case Tuple(_) =>
    case List(items) =>
      KeptItems(items);
      forall i | 0 <= i < |items| ensures !SecretReached(Sanitize(items[i])) {
        NothingLeftToRemove(items[i]);
      }
    case Dict(entries) =>
      KeptEntries(entries);
      var kept := SanitizeEntries(entries);
      forall k | 0 <= k < |kept| ensures !IsSecretKey(kept[k].key) && !SecretReached(kept[k].value) {
        assert kept[k] in kept;
        var i :| 0 <= i < |entries| && !IsSecretKey(entries[i].key) &&
          kept[k] == Entry(entries[i].key, Sanitize(entries[i].value));
        NothingLeftToRemove(entries[i].value);
      }
  }

  /** Sanitizing twice is sanitizing once. */
  lemma SanitizeIdempotent(v: Value)
    ensures Sanitize(Sanitize(v)) == Sanitize(v)
  {
    NothingLeftToRemove(v);
    UnchangedIff(Sanitize(v));
  }

  lemma {:induction false} JsonReached(v: Value)
    requires IsJson(v)
    ensures SecretReached(v) <==> ContainsCardSecret(v)
  {
    match v
    case Scalar(_) =>
    case List(items) =>
      forall i | 0 <= i < |items| ensures SecretReached(items[i]) <==> ContainsCardSecret(items[i]) {
        JsonReached(items[i]);
      }
    case Dict(entries) =>
      forall i | 0 <= i < |entries| ensures SecretReached(entries[i].value) <==> ContainsCardSecret(entries[i].value) {
        JsonReached(entries[i].value);
      }
  }

  /** For JSON the two modules agree: the sanitizer changes a payload exactly when the detector would refuse it. */
  lemma DetectorAgrees(v: Value)
    requires IsJson(v)
    ensures Sanitize(v) == v <==> !ContainsCardSecret(v)
  {
    JsonReached(v);
    UnchangedIff(v);
  }

  /** A payload with a tuple, where the two modules disagree. */
  lemma TupleEscapes()
    ensures var v := Dict([Entry("card", Tuple([Dict([Entry("CVV", Scalar("123"))])]))]);
      Sanitize(v) == v && ContainsCardSecret(Sanitize(v))
  {
    var inner := Dict([Entry("CVV", Scalar("123"))]);
    var v := Dict([Entry("card", Tuple([inner]))]);
    assert Lower("CVV") == "cvv";
    assert IsSecretKey(inner.entries[0].key) && ContainsCardSecret(inner);
    assert Tuple([inner]).members[0] == inner;
    assert Lower("card") == "card" && !IsSecretKey("card");
    assert v.entries[0].value == Tuple([inner]) && ContainsCardSecret(v);
    assert v.entries[1..] == [];
    assert SanitizeEntries(v.entries) == [Entry("card", Tuple([inner]))];
  }

  // ---------- what is kept, path by path ----------

  /** The same letters, in either case. */
  predicate SameIgnoringCase(key: string, word: string) {
    |key| == |word| && forall i :: 0 <= i < |word| ==>
      key[i] == word[i] || ('a' <= word[i] <= 'z' && 'A' <= key[i] <= 'Z' && key[i] - 'A' == word[i] - 'a')
  }

  lemma LowerIs(key: string, word: string)
    requires forall i :: 0 <= i < |word| ==> !('A' <= word[i] <= 'Z')
    ensures Lower(key) == word <==> SameIgnoringCase(key, word)
  {
    if SameIgnoringCase(key, word) {
      assert forall i :: 0 <= i < |word| ==> Lower(key)[i] == word[i];
    }
    if Lower(key) == word {
      forall i | 0 <= i < |word|
        ensures key[i] == word[i] || ('a' <= word[i] <= 'z' && 'A' <= key[i] <= 'Z' && key[i] - 'A' == word[i] - 'a')
      {
        assert Lower(key)[i] == word[i];
      }
    }
  }

  /** The secret keys are these five words, in any mixture of cases. */
  lemma SecretKeysAre(key: string)
    ensures IsSecretKey(key) <==>
      || SameIgnoringCase(key, "number") || SameIgnoringCase(key, "security_code")
      || SameIgnoringCase(key, "card_number") || SameIgnoringCase(key, "cvv") || SameIgnoringCase(key, "cvv2")
  {
    LowerIs(key, "number");
    LowerIs(key, "security_code");
    LowerIs(key, "card_number");
    LowerIs(key, "cvv");
    LowerIs(key, "cvv2");
    hide SameIgnoringCase, Lower;
    assert Lower(key) in SECRET_KEYS <==>
      || Lower(key) == "number" || Lower(key) == "security_code" || Lower(key) == "card_number"
      || Lower(key) == "cvv" || Lower(key) == "cvv2";
  }

  /** One step into a dict or a list. */
  datatype Hop = Key(name: string) | At(index: nat)

  /** The path leads from the value to this text. */
  predicate Reaches(v: Value, path: seq<Hop>, text: string)
    decreases |path|, 0
  {
    if path == [] then v == Scalar(text)
    else
      match path[0]
      case Key(name) => v.Dict? && EntryReaches(v.entries, name, path[1..], text)
      case At(index) => v.List? && index < |v.items| && Reaches(v.items[index], path[1..], text)
  }

  predicate EntryReaches(entries: seq<Entry>, name: string, rest: seq<Hop>, text: string)
    decreases |rest|, 1
  {
    exists i :: 0 <= i < |entries| && entries[i].key == name && Reaches(entries[i].value, rest, text)
  }

  predicate MeetsSecret(path: seq<Hop>) {
    exists i :: 0 <= i < |path| && path[i].Key? && IsSecretKey(path[i].name)
  }

  /** The sanitized copy has the same texts at the same places, except those below a secret key. */
  lemma {:induction false} SanitizeKeepsRest(v: Value, path: seq<Hop>, text: string)
    ensures Reaches(Sanitize(v), path, text) <==> Reaches(v, path, text) && !MeetsSecret(path)
    decreases |path|
  {
    if path == [] {
      return;
    }
    var rest := path[1..];
    assert MeetsSecret(path) <==> (path[0].Key? && IsSecretKey(path[0].name)) || MeetsSecret(rest) by {
      if i :| 0 <= i < |rest| && rest[i].Key? && IsSecretKey(rest[i].name) {
        assert path[i + 1] == rest[i];
      }
      if i :| 1 <= i < |path| && path[i].Key? && IsSecretKey(path[i].name) {
        assert rest[i - 1] == path[i];
      }
    }
    hide MeetsSecret;
    match v
    case Scalar(_) =>
    case Tuple(_) =>
    case List(items) =>
      KeptItems(items);
      if path[0].At? && path[0].index < |items| {
        SanitizeKeepsRest(items[path[0].index], rest, text);
      }
    case Dict(entries) =>
      if path[0].Key? {
        forall i | 0 <= i < |entries|
          ensures Reaches(Sanitize(entries[i].value), rest, text) <==>
            Reaches(entries[i].value, rest, text) && !MeetsSecret(rest)
        {
          SanitizeKeepsRest(entries[i].value, rest, text);
        }
        EntryKept(entries, path[0].name, rest, text);
      }
  }

  lemma EntryKept(entries: seq<Entry>, name: string, rest: seq<Hop>, text: string)
    requires forall i :: 0 <= i < |entries| ==>
      (Reaches(Sanitize(entries[i].value), rest, text) <==> Reaches(entries[i].value, rest, text) && !MeetsSecret(rest))
    ensures EntryReaches(SanitizeEntries(entries), name, rest, text) <==>
      EntryReaches(entries, name, rest, text) && !IsSecretKey(name) && !MeetsSecret(rest)
  {
    var kept := SanitizeEntries(entries);
    KeptEntries(entries);
    hide SanitizeEntries, IsSecretKey, Sanitize, MeetsSecret;
    if EntryReaches(kept, name, rest, text) {
      var k :| 0 <= k < |kept| && kept[k].key == name && Reaches(kept[k].value, rest, text);
      assert kept[k] in kept;
      var i :| 0 <= i < |entries| && !IsSecretKey(entries[i].key)
        && kept[k] == Entry(entries[i].key, Sanitize(entries[i].value));
      assert entries[i].key == name && Reaches(entries[i].value, rest, text);
    }
    if EntryReaches(entries, name, rest, text) && !IsSecretKey(name) && !MeetsSecret(rest) {
      var i :| 0 <= i < |entries| && entries[i].key == name && Reaches(entries[i].value, rest, text);
      var e := Entry(entries[i].key, Sanitize(entries[i].value));
      assert e in kept;
      var k :| 0 <= k < |kept| && kept[k] == e;
      assert kept[k].key == name && Reaches(kept[k].value, rest, text);
    }
  }
}
