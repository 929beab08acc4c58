/**
 The audit-detail sanitiser: keys with a sensitive word in their name are dropped from dictionaries, from the
 dictionaries in them, and from dictionaries in lists that a dictionary holds directly. Lists inside lists are copied
 as they are.
 */
module Sanitiser {
  import opened Prelude

  /** A detail value; scalars stand for everything that is neither a dictionary nor a list. */
  datatype Json = Scalar(value: string) | List(items: seq<Json>) | Dict(fields: map<string, Json>)

  const SENSITIVE: set<string> := {"password", "token", "secret", "key", "credential", "hash", "fernet", "encrypt", "private"}

  predicate Contains(s: string, word: string) { word <= s || (s != "" && Contains(s[1..], word)) }

  lemma {:induction false} ContainsIsSubstring(s: string, word: string)
    ensures Contains(s, word) <==> exists a, b :: s == a + word + b
  {
    if word <= s {
      assert s == "" + word + s[|word|..];
    } else if s != "" {
      ContainsIsSubstring(s[1..], word);
      if Contains(s[1..], word) {
        var a, b :| s[1..] == a + word + b;
        assert s == ([s[0]] + a) + word + b;
      }
      if exists a, b :: s == a + word + b {
        var a, b :| s == a + word + b;
        assert a != "";
        assert s[1..] == a[1..] + word + b;
      }
    }
  }

  /** `lower` is the platform's lower-casing; nothing here depends on what it does. */
  predicate Sensitive(lower: string -> string, key: string) { exists word | word in SENSITIVE :: Contains(lower(key), word) }

  /** A key is sensitive exactly if one of nine words occurs in its lower-cased form. */
  lemma SensitiveIff(lower: string -> string, key: string)
    ensures Sensitive(lower, key) <==> exists word, a, b | word in SENSITIVE :: lower(key) == a + word + b
  {
    if Sensitive(lower, key) {
      var word :| word in SENSITIVE && Contains(lower(key), word);
      ContainsIsSubstring(lower(key), word);
    }
    if exists word, a, b | word in SENSITIVE :: lower(key) == a + word + b {
      var word, a, b :| word in SENSITIVE && lower(key) == a + word + b;
      ContainsIsSubstring(lower(key), word);
    }
  }

  /** Where a value stands: as a dictionary's value, as an item of a list held by a dictionary, or deeper in lists. */
  datatype Place = Value | Item | Beyond

  function Clean(lower: string -> string, place: Place, j: Json): Json
    decreases j
  {
    match (place, j)
    case (Beyond, _) => j
    case (_, Scalar(_)) => j
    case (_, Dict(fields)) => Dict(map k | k in fields && !Sensitive(lower, k) :: Clean(lower, Value, fields[k]))
    case (Value, List(items)) => List(seq(|items|, i requires 0 <= i < |items| => Clean(lower, Item, items[i])))
    case (Item, List(_)) => j
  }

  /** What is logged: nothing for no detail, else the dictionary cleaned. */
  function SanitiseDetail(lower: string -> string, detail: Option<map<string, Json>>): Option<map<string, Json>>
  {
    match detail
    case None => None
    case Some(fields) => Some(Clean(lower, Value, Dict(fields)).fields)
  }

  lemma {:induction false} CleanIsIdempotent(lower: string -> string, place: Place, j: Json)
    ensures Clean(lower, place, Clean(lower, place, j)) == Clean(lower, place, j)
    decreases j
  {
    match (place, j) {
      case (Beyond, _) =>
      case (_, Scalar(_)) =>
      case (_, Dict(fields)) =>
        forall k | k in fields ensures Clean(lower, Value, Clean(lower, Value, fields[k])) == Clean(lower, Value, fields[k]) {
          CleanIsIdempotent(lower, Value, fields[k]);
        }
      case (Value, List(items)) =>
        forall i | 0 <= i < |items| ensures Clean(lower, Item, Clean(lower, Item, items[i])) == Clean(lower, Item, items[i]) {
          CleanIsIdempotent(lower, Item, items[i]);
        }
      case (Item, List(_)) =>
    }
  }

  datatype Step = Key(key: string) | Index(index: nat)

  function Lookup(j: Json, path: seq<Step>): Option<Json>
    decreases path
  {
    if path == [] then Some(j)
    else match (j, path[0])
      case (Dict(fields), Key(k)) => if k in fields then Lookup(fields[k], path[1..]) else None
      case (List(items), Index(i)) => if i < |items| then Lookup(items[i], path[1..]) else None
      case _ => None
  }

  function PlaceAfter(place: Place, step: Step): Place
  {
    match (place, step)
    case (Beyond, _) => Beyond
    case (_, Key(_)) => Value
    case (Value, Index(_)) => Item
    case (Item, Index(_)) => Beyond
  }

  function PlaceAt(place: Place, path: seq<Step>): Place
    decreases path
  {
    if path == [] then place else PlaceAt(PlaceAfter(place, path[0]), path[1..])
  }

  /** No sensitive key on the part of the path the sanitiser looks at: up to the first list inside a list. */
  predicate Kept(lower: string -> string, place: Place, path: seq<Step>)
    decreases path
  {
    path != [] ==> !(place != Beyond && path[0].Key? && Sensitive(lower, path[0].key)) && Kept(lower, PlaceAfter(place, path[0]), path[1..])
  }

  /** What is left at a path: nothing if the path is not kept, else what was there, itself cleaned. */
  lemma {:induction false} CleanedPaths(lower: string -> string, place: Place, j: Json, path: seq<Step>)
    ensures Lookup(Clean(lower, place, j), path) ==
      match Lookup(j, path)
      case Some(x) => if Kept(lower, place, path) then Some(Clean(lower, PlaceAt(place, path), x)) else None
      case None => None
    decreases path
  {
    if path != [] {
      match (j, path[0]) {
        case (Dict(fields), Key(k)) =>
          if k in fields {
            CleanedPaths(lower, PlaceAfter(place, path[0]), fields[k], path[1..]);
          }
        case (List(items), Index(i)) =>
          if i < |items| {
            CleanedPaths(lower, PlaceAfter(place, path[0]), items[i], path[1..]);
          }
        case _ =>
      }
    }
  }

  /** What stands at a path of a detail. */
  function DetailAt(detail: Option<map<string, Json>>, path: seq<Step>): Option<Json>
  {
    if detail.None? then None else Lookup(Dict(detail.value), path)
  }

  /** Sanitising what has been sanitised changes nothing. */
  lemma SanitisingTwice(lower: string -> string, detail: Option<map<string, Json>>)
    ensures SanitiseDetail(lower, SanitiseDetail(lower, detail)) == SanitiseDetail(lower, detail)
  {
    if detail.Some? {
      CleanIsIdempotent(lower, Value, Dict(detail.value));
    }
  }

  /**
   Sanitising leaves exactly the paths without a sensitive key where it looks; every scalar on such a path, and
   everything inside a list of a list, keeps its value.
   */
  lemma SanitisedPaths(lower: string -> string, detail: Option<map<string, Json>>, path: seq<Step>)
    ensures var before, after := DetailAt(detail, path), DetailAt(SanitiseDetail(lower, detail), path);
      && (after.Some? <==> before.Some? && Kept(lower, Value, path))
      && (after.Some? ==> after.value.Scalar? == before.value.Scalar? && after.value.List? == before.value.List?)
      && (after.Some? && (before.value.Scalar? || PlaceAt(Value, path) == Beyond) ==> after == before)
  {
    if detail.Some? {
      CleanedPaths(lower, Value, Dict(detail.value), path);
    }
  }

  method SanitiseOptional(lower: string -> string, detail: Option<map<string, Json>>) returns (result: Option<map<string, Json>>)
    ensures result == SanitiseDetail(lower, detail)
  {
    if detail.None? {
      return None;
    }
    var cleaned := Sanitise(lower, detail.value);
    return Some(cleaned);
  }

  /** The loop that fills the sanitised dictionary, item by item. */
  method Sanitise(lower: string -> string, fields: map<string, Json>) returns (result: map<string, Json>)
    ensures Dict(result) == Clean(lower, Value, Dict(fields))
    decreases Dict(fields)
  {
    result := map[];
    var rest := fields.Keys;
    while rest != {}
      invariant rest <= fields.Keys
      invariant forall k :: k in result <==> k in fields && k !in rest && !Sensitive(lower, k)
      invariant forall k | k in result :: result[k] == Clean(lower, Value, fields[k])
      decreases rest
    {
      var k :| k in rest;
      rest := rest - {k};
      if Sensitive(lower, k) {
        continue;
      }
      match fields[k] {
        case Dict(inner) =>
          var cleaned := Sanitise(lower, inner);
          result := result[k := Dict(cleaned)];
        case List(items) =>
          var cleaned := SanitiseItems(lower, items);
          result := result[k := List(cleaned)];
        case Scalar(_) =>
          result := result[k := fields[k]];
      }
    }
    assert result == Clean(lower, Value, Dict(fields)).fields;
  }

  method SanitiseItems(lower: string -> string, items: seq<Json>) returns (result: seq<Json>)
    ensures List(result) == Clean(lower, Value, List(items))
    decreases List(items)
  {
    result := [];
    for i := 0 to |items|
      invariant |result| == i && forall n | 0 <= n < i :: result[n] == Clean(lower, Item, items[n])
    {
      match items[i] {
        case Dict(inner) =>
          var cleaned := Sanitise(lower, inner);
          result := result + [Dict(cleaned)];
        case _ =>
          result := result + [items[i]];
      }
    }
  }
}
