/**
 * The weather client's time-to-live memo and its response validation.
 *
 * The memo wraps a fetch function: a call is keyed by its positional
 * arguments and its keyword arguments sorted by name, answered from the memo
 * while the stored entry is younger than the time to live, and otherwise
 * computed and stored with the clock reading taken before the call. The
 * clock and what the wrapped function returns (or raises) are parameters.
 */
module WeatherClient {
  import opened Numerics
  import Text

  // ---------------------------------------------------------------- string order

  /** Python's `<` on strings: lexicographic by character code. */
  predicate StrLess(a: string, b: string)
    decreases |a|
  {
    if |a| == 0 then |b| > 0
    else if |b| == 0 then false
    else if a[0] < b[0] then true
    else a[0] == b[0] && StrLess(a[1..], b[1..])
  }

  lemma {:induction false} StrLessIrreflexive(a: string)
    ensures !StrLess(a, a)
    decreases |a|
  {
    if |a| > 0 {
      StrLessIrreflexive(a[1..]);
    }
  }

  lemma {:induction false} StrLessTransitive(a: string, b: string, c: string)
    requires StrLess(a, b) && StrLess(b, c)
    ensures StrLess(a, c)
    decreases |a|
  {
    if |a| > 0 && a[0] == b[0] && b[0] == c[0] {
      StrLessTransitive(a[1..], b[1..], c[1..]);
    }
  }

  lemma {:induction false} StrLessTotal(a: string, b: string)
    requires a != b
    ensures StrLess(a, b) || StrLess(b, a)
    decreases |a|
  {
    if |a| > 0 && |b| > 0 && a[0] == b[0] {
      assert a == [a[0]] + a[1..] && b == [b[0]] + b[1..];
      StrLessTotal(a[1..], b[1..]);
    }
  }

  lemma StrLessAsymmetric(a: string, b: string)
    requires StrLess(a, b)
    ensures !StrLess(b, a)
  {
    if StrLess(b, a) {
      StrLessTransitive(a, b, a);
      StrLessIrreflexive(a);
    }
  }

  // ---------------------------------------------------------------- the memo key

  /** Keyword arguments as passed: a name and a value each; Python never repeats a name. */
  ghost predicate DistinctNames<A>(items: seq<(string, A)>) {
    forall i, j :: 0 <= i < j < |items| ==> items[i].0 != items[j].0
  }

  ghost predicate StrictlySorted<A>(items: seq<(string, A)>) {
    forall i, j :: 0 <= i < j < |items| ==> StrLess(items[i].0, items[j].0)
  }

  /** Inserts an item before the first item whose name is greater. */
  function InsertItem<A>(x: (string, A), items: seq<(string, A)>): (r: seq<(string, A)>)
    ensures multiset(r) == multiset(items) + multiset{x}
  {
    if items == [] then [x]
    else if StrLess(x.0, items[0].0) then [x] + items
    else
      assert items == [items[0]] + items[1..];
      [items[0]] + InsertItem(x, items[1..])
  }

  /** `sorted(kwargs.items())`: the items by ascending name (names are distinct, so values are never compared). */
  function SortItems<A>(items: seq<(string, A)>): (r: seq<(string, A)>)
    ensures multiset(r) == multiset(items)
  {
    if items == [] then []
    else
      assert items == [items[0]] + items[1..];
      InsertItem(items[0], SortItems(items[1..]))
  }

  lemma {:induction false} InsertItemSorted<A>(x: (string, A), items: seq<(string, A)>)
    requires StrictlySorted(items)
    requires forall i :: 0 <= i < |items| ==> items[i].0 != x.0
    ensures StrictlySorted(InsertItem(x, items))
  {
    if items != [] && !StrLess(x.0, items[0].0) {
      StrLessTotal(x.0, items[0].0);
      var rest := items[1..];
      InsertItemSorted(x, rest);
      var r := InsertItem(x, rest);
      assert multiset(r) == multiset(rest) + multiset{x};
      forall k | 0 <= k < |r|
        ensures StrLess(items[0].0, r[k].0)
      {
        assert r[k] in multiset(r);
        if r[k] == x {
        } else {
          assert r[k] in multiset(rest);
          var i :| 0 <= i < |rest| && rest[i] == r[k];
          assert rest[i] == items[i + 1];
        }
      }
    } else if items != [] {
      forall k | 1 <= k < |items| + 1
        ensures StrLess(x.0, ([x] + items)[k].0)
      {
        if k > 1 {
          StrLessTransitive(x.0, items[0].0, items[k - 1].0);
        }
      }
    }
  }

  lemma {:induction false} SortItemsSorted<A>(items: seq<(string, A)>)
    requires DistinctNames(items)
    ensures StrictlySorted(SortItems(items))
  {
    if items != [] {
      var rest := items[1..];
      assert DistinctNames(rest) by {
        forall i, j | 0 <= i < j < |rest|
          ensures rest[i].0 != rest[j].0
        {
          assert rest[i] == items[i + 1] && rest[j] == items[j + 1];
        }
      }
      SortItemsSorted(rest);
      var sorted := SortItems(rest);
      forall i | 0 <= i < |sorted|
        ensures sorted[i].0 != items[0].0
      {
        assert sorted[i] in multiset(sorted);
        var j :| 0 <= j < |rest| && rest[j] == sorted[i];
        assert rest[j] == items[j + 1];
      }
      InsertItemSorted(items[0], sorted);
    }
  }

  lemma SortedTail<A>(s: seq<(string, A)>)
    requires StrictlySorted(s) && s != []
    ensures StrictlySorted(s[1..])
  {
    forall i, j | 0 <= i < j < |s| - 1
      ensures StrLess(s[1..][i].0, s[1..][j].0)
    {
      assert s[1..][i] == s[i + 1] && s[1..][j] == s[j + 1];
    }
  }

  /** Two strictly sorted item lists with the same items are the same list. */
  lemma {:induction false} SortedUnique<A>(s: seq<(string, A)>, t: seq<(string, A)>)
    requires StrictlySorted(s) && StrictlySorted(t)
    requires multiset(s) == multiset(t)
    ensures s == t
  {
    if s != [] {
      assert t != [] by {
        assert s[0] in multiset(s);
      }
      if s[0] != t[0] {
        assert s[0] in multiset(t);
        var j :| 0 <= j < |t| && t[j] == s[0];
        assert t[0] in multiset(s);
        var i :| 0 <= i < |s| && s[i] == t[0];
        assert StrLess(t[0].0, s[0].0);
        assert StrLess(s[0].0, t[0].0);
        StrLessAsymmetric(s[0].0, t[0].0);
        assert false;
      }
      assert s == [s[0]] + s[1..] && t == [t[0]] + t[1..];
      assert multiset(s) == multiset{s[0]} + multiset(s[1..]);
      assert multiset(t) == multiset{t[0]} + multiset(t[1..]);
      assert multiset(s[1..]) == multiset(s) - multiset{s[0]};
      assert multiset(t[1..]) == multiset(t) - multiset{t[0]};
      SortedTail(s);
      SortedTail(t);
      SortedUnique(s[1..], t[1..]);
    }
  }

  /** The memo key: the positional arguments and the sorted keyword items. */
  datatype CallKey<A> = CallKey(args: seq<A>, kwargs: seq<(string, A)>)

  function KeyOf<A>(args: seq<A>, kwargs: seq<(string, A)>): (k: CallKey<A>)
    ensures k.args == args && multiset(k.kwargs) == multiset(kwargs)
  {
    CallKey(args, SortItems(kwargs))
  }

  /** Passing the same keyword arguments in another order hits the same memo entry. */
  lemma KeyIgnoresKeywordOrder<A>(args: seq<A>, kw1: seq<(string, A)>, kw2: seq<(string, A)>)
    requires DistinctNames(kw1) && DistinctNames(kw2)
    requires multiset(kw1) == multiset(kw2)
    ensures KeyOf(args, kw1) == KeyOf(args, kw2)
  {
    SortItemsSorted(kw1);
    SortItemsSorted(kw2);
    SortedUnique(SortItems(kw1), SortItems(kw2));
  }

  // ---------------------------------------------------------------- the memo

  /** What the wrapped function did: returned a value or raised. */
  datatype Outcome<+V> = Returned(value: V) | Raised(message: string)

  /** A memo entry: the stored result and the clock reading taken before it was computed. */
  datatype Stamped<+V> = Stamped(result: V, timestamp: real)

  datatype Answer<A(==), V> = Answer(outcome: Outcome<V>, memo: map<CallKey<A>, Stamped<V>>)

  /** The stored entry is younger than the time to live (strictly). */
  predicate Hit<A(==), V>(memo: map<CallKey<A>, Stamped<V>>, ttl: real, key: CallKey<A>, now: real)
  {
    key in memo && now - memo[key].timestamp < ttl
  }

  /**
   * One wrapped call at clock `now`, where `computed` is what the function
   * does if it is called. Entries are overwritten, never removed.
   */
  function MemoCall<A(==), V>(memo: map<CallKey<A>, Stamped<V>>, ttl: real, key: CallKey<A>, now: real,
                          computed: Outcome<V>): (a: Answer<A, V>)
    ensures a.memo.Keys == memo.Keys || a.memo.Keys == memo.Keys + {key}
    ensures forall k :: k in memo && k != key ==> k in a.memo && a.memo[k] == memo[k]
    ensures !Hit(memo, ttl, key, now) ==> a.outcome == computed
  {
    if Hit(memo, ttl, key, now) then Answer(Returned(memo[key].result), memo)
    else
      match computed
      case Returned(v) => Answer(computed, memo[key := Stamped(v, now)])
      case Raised(_) => Answer(computed, memo)
  }

  /** A hit returns the stored result and leaves the memo alone, whatever the function would have done. */
  lemma HitSkipsCall<A, V>(memo: map<CallKey<A>, Stamped<V>>, ttl: real, key: CallKey<A>, now: real,
                           c1: Outcome<V>, c2: Outcome<V>)
    requires Hit(memo, ttl, key, now)
    ensures MemoCall(memo, ttl, key, now, c1) == MemoCall(memo, ttl, key, now, c2)
    ensures MemoCall(memo, ttl, key, now, c1) == Answer(Returned(memo[key].result), memo)
  {
  }

  /** An entry exactly `ttl` old is stale: the function is called and its result replaces the entry. */
  lemma ExpiryIsStrict<A, V>(memo: map<CallKey<A>, Stamped<V>>, ttl: real, key: CallKey<A>, now: real, v: V)
    requires key in memo && now - memo[key].timestamp == ttl
    ensures MemoCall(memo, ttl, key, now, Returned(v)) == Answer(Returned(v), memo[key := Stamped(v, now)])
  {
  }

  /** A value computed at `now` answers every call with the same key before `now + ttl`. */
  lemma CallThenHit<A, V>(memo: map<CallKey<A>, Stamped<V>>, ttl: real, key: CallKey<A>, now: real, v: V,
                          later: real, c: Outcome<V>)
    requires !Hit(memo, ttl, key, now)
    requires later - now < ttl
    ensures MemoCall(MemoCall(memo, ttl, key, now, Returned(v)).memo, ttl, key, later, c).outcome == Returned(v)
  {
    assert MemoCall(memo, ttl, key, now, Returned(v)).memo[key] == Stamped(v, now);
  }

  /** The memo of one decorated function. */
  class TtlCache<A(==), V> {
    const ttl: real
    var memo: map<CallKey<A>, Stamped<V>>

    constructor(ttlSeconds: real)
      ensures ttl == ttlSeconds && memo == map[]
    {
      ttl := ttlSeconds;
      memo := map[];
    }

    method Call(args: seq<A>, kwargs: seq<(string, A)>, now: real, computed: Outcome<V>) returns (r: Outcome<V>)
      modifies this
      ensures r == MemoCall(old(memo), ttl, KeyOf(args, kwargs), now, computed).outcome
      ensures memo == MemoCall(old(memo), ttl, KeyOf(args, kwargs), now, computed).memo
    {
      var key := KeyOf(args, kwargs);
      if key in memo {
        var entry := memo[key];
        if now - entry.timestamp < ttl {
          return Returned(entry.result);
        }
      }
      r := computed;
      if computed.Returned? {
        memo := memo[key := Stamped(computed.value, now)];
      }
    }
  }

  // ---------------------------------------------------------------- response validation

  /**
   * The exception `_validate_response` raises: the two client errors, the
   * missing-fields error, and the TypeError of an `in` test on a JSON number,
   * boolean or null.
   */
  datatype ResponseError = BadStatus(code: int) | InvalidJson | MissingWeatherFields | NotIterable

  /**
   * What `response.json()` gives: no value when the body does not parse, an
   * object (its keys), an array (its string elements, `None` for any other
   * element), a string, or a number, boolean or null.
   */
  datatype JsonBody = Unparsable | Object(keys: set<string>) | Array(items: seq<Option<string>>)
                    | Str(text: string) | Scalar

  /** The keys of which at least one must be present in a weather answer. */
  const WeatherFields: set<string> := {"hourly", "daily", "current_weather", "current"}

  /**
   * Python's `key in data` on an iterable body: key membership for an
   * object, element equality for an array, substring search for a string.
   */
  predicate HasKey(body: JsonBody, key: string)
    requires body.Object? || body.Array? || body.Str?
  {
    match body
    case Object(keys) => key in keys
    case Array(items) => Some(key) in items
    case Str(text) => Text.Contains(key, text)
  }

  /**
   * A response passes when its status is 200, its body parses and holds one
   * of the weather keys by Python's `in`. A non-200 status and a body that
   * does not parse are client errors; a number, boolean or null body makes
   * the first `in` test raise.
   */
  function ValidateResponse(status: int, body: JsonBody): (r: Checked)
    ensures r.Accepted? <==> status == 200 && (body.Object? || body.Array? || body.Str?)
                             && exists k :: k in WeatherFields && HasKey(body, k)
    ensures r.Accepted? ==> r.body == body
    ensures status != 200 ==> r == Rejected(BadStatus(status))
    ensures status == 200 && body.Unparsable? ==> r == Rejected(InvalidJson)
    ensures status == 200 && body.Scalar? ==> r == Rejected(NotIterable)
    ensures status == 200 && body.Object? ==> (r.Accepted? <==> body.keys * WeatherFields != {})
  {
    if status != 200 then Rejected(BadStatus(status))
    else if body.Unparsable? then Rejected(InvalidJson)
    else if body.Scalar? then Rejected(NotIterable)
    else if !HasKey(body, "hourly") && !HasKey(body, "daily") && !HasKey(body, "current_weather")
            && !HasKey(body, "current") then
      assert forall k :: k in WeatherFields ==> !HasKey(body, k);
      Rejected(MissingWeatherFields)
    else
      assert "hourly" in WeatherFields && "daily" in WeatherFields && "current_weather" in WeatherFields
             && "current" in WeatherFields;
      assert body.Object? ==> body.keys * WeatherFields != {} by {
        if body.Object? {
          var k := if "hourly" in body.keys then "hourly" else if "daily" in body.keys then "daily"
                   else if "current_weather" in body.keys then "current_weather" else "current";
          assert k in body.keys * WeatherFields;
        }
      }
      Accepted(body)
  }

  /** The parsed body, or the reason the client raises. */
  datatype Checked = Accepted(body: JsonBody) | Rejected(error: ResponseError)
}
