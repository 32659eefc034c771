/**
 * The world-clock city list as it is kept in the preference store
 * (Cities.saveCitiesToSharedPrefs / readCitiesFromSharedPrefs).
 *
 * The store is a map from keys to int or string values. A city is written
 * under three per-index keys, the prefix followed by the decimal index; the
 * count of cities is written under "number_of_cities".
 */
module WorldClock {
  import opened Wrappers
  import opened Decimal

  const NumberOfCities: string := "number_of_cities"
  const CityName: string := "city_name_"
  const CityTimeZone: string := "city_tz_"
  const CityId: string := "city_id_"

  datatype PrefValue = IntValue(i: int) | StringValue(s: string)

  type Prefs = map<string, PrefValue>

  /** A CityObj: its id, name and time zone, each possibly null. */
  datatype City = City(id: Option<string>, name: Option<string>, timeZone: Option<string>)

  /** The HashMap<String, CityObj> of selected cities; its key may be null too. */
  type CityTable = map<Option<string>, City>

  /** Reading a key whose stored value has the other type throws ClassCastException. */
  datatype PrefsError = ClassCast(key: string)

  // ---------------------------------------------------------------------
  // The preference store

  /** SharedPreferences.getInt(key, default). */
  function GetInt(p: Prefs, key: string, default: int): Result<int, PrefsError> {
    if key !in p then Success(default)
    else match p[key]
      case IntValue(i) => Success(i)
      case StringValue(_) => Failure(ClassCast(key))
  }

  /** SharedPreferences.getString(key, null). */
  function GetString(p: Prefs, key: string): Result<Option<string>, PrefsError> {
    if key !in p then Success(None)
    else match p[key]
      case StringValue(s) => Success(Some(s))
      case IntValue(_) => Failure(ClassCast(key))
  }

  /** Editor.putString(key, v); a null value removes the key when the edit is applied. */
  function PutString(p: Prefs, key: string, v: Option<string>): (r: Prefs)
    ensures GetString(r, key) == Success(v)
  {
    if v.None? then p - {key} else p[key := StringValue(v.value)]
  }

  /** putString leaves every other key as it was. */
  lemma PutStringElsewhere(p: Prefs, key: string, v: Option<string>, k: string)
    requires k != key
    ensures k in PutString(p, key, v) <==> k in p
    ensures k in p ==> PutString(p, key, v)[k] == p[k]
  {
  }

  /** The per-index key: `prefix + index`. */
  function Key(prefix: string, index: nat): string {
    prefix + NatToDecimal(index)
  }

  predicate IsCityPrefix(prefix: string) {
    prefix == CityName || prefix == CityTimeZone || prefix == CityId
  }

  /** Per-index keys never collide with each other or with the count key. */
  lemma KeysDistinct(p: string, i: nat, q: string, j: nat)
    requires IsCityPrefix(p) && IsCityPrefix(q)
    ensures Key(p, i) == Key(q, j) <==> p == q && i == j
    ensures Key(p, i) != NumberOfCities
  {
    var a, b := Key(p, i), Key(q, j);
    assert a[0] == 'c' != NumberOfCities[0];
    if a == b {
      assert a[5] == p[5] && b[5] == q[5];
      assert p == q;
      assert a[|p|..] == NatToDecimal(i) && b[|q|..] == NatToDecimal(j);
      DecimalInjective(i, j);
    }
  }

  // ---------------------------------------------------------------------
  // One city (the CityObj constructor and saveCityToSharedPrefs)

  /** `new CityObj(prefs, index)`: reads the name, the time zone and the id at `index`. */
  function ReadCity(p: Prefs, index: nat): Result<City, PrefsError> {
    var name :- GetString(p, Key(CityName, index));
    var timeZone :- GetString(p, Key(CityTimeZone, index));
    var id :- GetString(p, Key(CityId, index));
    Success(City(id, name, timeZone))
  }

  /** `city.saveCityToSharedPrefs(editor, index)`. */
  function WriteCity(p: Prefs, c: City, index: nat): Prefs {
    PutString(PutString(PutString(p, Key(CityName, index), c.name), Key(CityTimeZone, index), c.timeZone),
              Key(CityId, index), c.id)
  }

  /** Whether the reader keeps a city: both its name and its time zone are present. */
  predicate Complete(c: City) {
    c.name.Some? && c.timeZone.Some?
  }

  /** One step of the reading loop: `c.put(o.mCityId, o)` for a complete city. */
  function Keep(acc: CityTable, c: City): CityTable {
    if Complete(c) then acc[c.id := c] else acc
  }

  // ---------------------------------------------------------------------
  // Reading

  /** The cities `new CityObj(prefs, i)` gives for i = 0 .. n-1, or the first error. */
  function ReadAll(p: Prefs, n: nat): (r: Result<seq<City>, PrefsError>)
    ensures r.Success? ==> |r.value| == n
  {
    if n == 0 then Success([])
    else
      var cities :- ReadAll(p, n - 1);
      var c :- ReadCity(p, n - 1);
      Success(cities + [c])
  }

  /** The table the reading loop builds from the cities it reads, in index order. */
  function KeepAll(cities: seq<City>): (r: CityTable)
    ensures |r| <= |cities|
    ensures forall k :: k in r ==> Complete(r[k]) && r[k].id == k
  {
    if cities == [] then map[] else Keep(KeepAll(cities[..|cities| - 1]), cities[|cities| - 1])
  }

  /** readCitiesFromSharedPrefs: a missing count reads as -1, and a count <= 0 gives no cities. */
  function ReadTable(p: Prefs): (r: Result<CityTable, PrefsError>)
    ensures r.Success? ==> GetInt(p, NumberOfCities, -1).Success?
    ensures r.Success? ==> |r.value| <= (if GetInt(p, NumberOfCities, -1).value > 0 then GetInt(p, NumberOfCities, -1).value else 0)
    ensures r.Success? ==> forall k :: k in r.value ==> Complete(r.value[k]) && r.value[k].id == k
  {
    var size :- GetInt(p, NumberOfCities, -1);
    if size > 0 then
      var cities :- ReadAll(p, size);
      Success(KeepAll(cities))
    else Success(map[])
  }

  /** Index i's city is kept under key k. */
  predicate KeptAs(c: City, k: Option<string>) {
    Complete(c) && c.id == k
  }

  /** The last index whose city is kept under k, or -1 when there is none. */
  function LastKept(cities: seq<City>, k: Option<string>): (r: int)
    ensures -1 <= r < |cities|
    ensures r >= 0 ==> KeptAs(cities[r], k)
    ensures forall j :: r < j < |cities| ==> !KeptAs(cities[j], k)
  {
    if cities == [] then -1
    else if KeptAs(cities[|cities| - 1], k) then |cities| - 1
    else LastKept(cities[..|cities| - 1], k)
  }

  /**
   * The table holds exactly the ids of complete cities, and for each id the
   * city at the last index that carries it.
   */
  lemma {:induction false} KeepAllLastWins(cities: seq<City>, k: Option<string>)
    ensures k in KeepAll(cities) <==> LastKept(cities, k) >= 0
    ensures k in KeepAll(cities) ==> KeepAll(cities)[k] == cities[LastKept(cities, k)]
  {
    if cities != [] {
      var front := cities[..|cities| - 1];
      KeepAllLastWins(front, k);
      if LastKept(front, k) >= 0 {
        assert cities[LastKept(front, k)] == front[LastKept(front, k)];
      }
    }
  }

  /** Every city a successful read returns is the one stored at its index. */
  lemma {:induction false} ReadAllAt(p: Prefs, n: nat, i: nat)
    requires ReadAll(p, n).Success? && i < n
    ensures ReadCity(p, i) == Success(ReadAll(p, n).value[i])
  {
    if i < n - 1 {
      ReadAllAt(p, n - 1, i);
    }
  }

  /** Once an index fails to read, the whole read fails with that error. */
  lemma {:induction false} ReadAllFailureSticks(p: Prefs, m: nat, n: nat)
    requires m <= n && ReadAll(p, m).Failure?
    ensures ReadAll(p, n) == ReadAll(p, m)
  {
    if m < n {
      ReadAllFailureSticks(p, m, n - 1);
    }
  }

  /** A missing or non-positive count reads as no cities at all. */
  lemma ReadWithoutCount(p: Prefs)
    requires NumberOfCities !in p || (p[NumberOfCities].IntValue? && p[NumberOfCities].i <= 0)
    ensures NumberOfCities !in p ==> GetInt(p, NumberOfCities, -1) == Success(-1)
    ensures ReadTable(p) == Success(map[])
  {
  }

  /** One more successful index extends the read by that city, and the table by keeping it. */
  lemma ReadAllStep(p: Prefs, n: nat, read: seq<City>, c: City)
    requires ReadAll(p, n) == Success(read) && ReadCity(p, n) == Success(c)
    ensures ReadAll(p, n + 1) == Success(read + [c])
    ensures KeepAll(read + [c]) == Keep(KeepAll(read), c)
  {
    assert (read + [c])[..|read|] == read;
  }

  /** readCitiesFromSharedPrefs, as Java writes it: an index loop filling a map. */
  method ReadCities(prefs: Prefs) returns (r: Result<CityTable, PrefsError>)
    ensures r == ReadTable(prefs)
  {
    var size: int;
    match GetInt(prefs, NumberOfCities, -1)
    case Failure(e) => return Failure(e);
    case Success(s) => size := s;
    var c: CityTable := map[];
    if size > 0 {
      ghost var read: seq<City> := [];
      for i := 0 to size
        invariant ReadAll(prefs, i) == Success(read)
        invariant c == KeepAll(read)
      {
        match ReadCity(prefs, i)
        case Failure(e) =>
          ReadAllFailureSticks(prefs, i + 1, size);
          return Failure(e);
        case Success(o) =>
          ReadAllStep(prefs, i, read, o);
          if o.name.Some? && o.timeZone.Some? {
            c := c[o.id := o];
          }
          read := read + [o];
      }
    }
    return Success(c);
  }

  // ---------------------------------------------------------------------
  // Saving

  /** The store after `cities[0 .. n-1]` have been written at indices 0 .. n-1. */
  function WritePrefix(p: Prefs, cities: seq<City>, n: nat): Prefs
    requires n <= |cities|
  {
    if n == 0 then p else WriteCity(WritePrefix(p, cities, n - 1), cities[n - 1], n - 1)
  }

  /** The store after saving: the count, then every city at its position in iteration order. */
  function SavedPrefs(p: Prefs, count: int, cities: seq<City>): Prefs {
    WritePrefix(p[NumberOfCities := IntValue(count)], cities, |cities|)
  }

  /** The table's values in the order `order` lists their keys (the HashMap's iteration order). */
  function InOrder(cities: CityTable, order: seq<Option<string>>): (r: seq<City>)
    requires forall k :: k in order ==> k in cities
    ensures |r| == |order| && forall i :: 0 <= i < |order| ==> r[i] == cities[order[i]]
  {
    if order == [] then []
    else InOrder(cities, order[..|order| - 1]) + [cities[order[|order| - 1]]]
  }

  /** An iteration order of the table: every key exactly once. */
  ghost predicate IsOrderOf(order: seq<Option<string>>, cities: CityTable) {
    |order| == |cities| && forall k :: k in order <==> k in cities
  }

  /** Writing cities at indices below n leaves every key that is not one of their keys alone. */
  lemma {:induction false} WritePrefixElsewhere(p: Prefs, cities: seq<City>, n: nat, key: string)
    requires n <= |cities|
    requires forall q, i :: IsCityPrefix(q) && 0 <= i < n ==> key != Key(q, i)
    ensures key in WritePrefix(p, cities, n) <==> key in p
    ensures key in p ==> WritePrefix(p, cities, n)[key] == p[key]
  {
    if n > 0 {
      WritePrefixElsewhere(p, cities, n - 1, key);
      var before := WritePrefix(p, cities, n - 1);
      var c := cities[n - 1];
      var p1 := PutString(before, Key(CityName, n - 1), c.name);
      var p2 := PutString(p1, Key(CityTimeZone, n - 1), c.timeZone);
      PutStringElsewhere(before, Key(CityName, n - 1), c.name, key);
      PutStringElsewhere(p1, Key(CityTimeZone, n - 1), c.timeZone, key);
      PutStringElsewhere(p2, Key(CityId, n - 1), c.id, key);
    }
  }

  /** The field of a city that is stored under a prefix. */
  function Field(c: City, prefix: string): Option<string>
    requires IsCityPrefix(prefix)
  {
    if prefix == CityName then c.name else if prefix == CityTimeZone then c.timeZone else c.id
  }

  /** Writing one city sets its three keys and leaves every other per-index key alone. */
  lemma WriteCityReads(p: Prefs, c: City, index: nat, q: string, i: nat)
    requires IsCityPrefix(q)
    ensures GetString(WriteCity(p, c, index), Key(q, i)) ==
      if i == index then Success(Field(c, q)) else GetString(p, Key(q, i))
  {
    KeysDistinct(q, i, CityName, index);
    KeysDistinct(q, i, CityTimeZone, index);
    KeysDistinct(q, i, CityId, index);
    var k := Key(q, i);
    var p1 := PutString(p, Key(CityName, index), c.name);
    var p2 := PutString(p1, Key(CityTimeZone, index), c.timeZone);
    if i != index {
      PutStringElsewhere(p, Key(CityName, index), c.name, k);
      PutStringElsewhere(p1, Key(CityTimeZone, index), c.timeZone, k);
      PutStringElsewhere(p2, Key(CityId, index), c.id, k);
    } else if q == CityName {
      PutStringElsewhere(p1, Key(CityTimeZone, index), c.timeZone, k);
      PutStringElsewhere(p2, Key(CityId, index), c.id, k);
    } else if q == CityTimeZone {
      PutStringElsewhere(p2, Key(CityId, index), c.id, k);
    }
  }

  /** After writing indices below n, each field of index i < n reads back the value written there. */
  lemma {:induction false} WritePrefixFields(p: Prefs, cities: seq<City>, n: nat, q: string, i: nat)
    requires i < n <= |cities| && IsCityPrefix(q)
    ensures GetString(WritePrefix(p, cities, n), Key(q, i)) == Success(Field(cities[i], q))
  {
    WriteCityReads(WritePrefix(p, cities, n - 1), cities[n - 1], n - 1, q, i);
    if i < n - 1 {
      WritePrefixFields(p, cities, n - 1, q, i);
    }
  }

  /** After writing indices below n, index i < n reads back the city written there. */
  lemma WritePrefixReadsBack(p: Prefs, cities: seq<City>, n: nat, i: nat)
    requires i < n <= |cities|
    ensures ReadCity(WritePrefix(p, cities, n), i) == Success(cities[i])
  {
    WritePrefixFields(p, cities, n, CityName, i);
    WritePrefixFields(p, cities, n, CityTimeZone, i);
    WritePrefixFields(p, cities, n, CityId, i);
  }

  /** saveCitiesToSharedPrefs over one iteration order of the table. */
  method SaveCities(prefs: Prefs, cities: CityTable, order: seq<Option<string>>) returns (saved: Prefs)
    requires IsOrderOf(order, cities)
    ensures saved == SavedPrefs(prefs, |cities|, InOrder(cities, order))
    ensures GetInt(saved, NumberOfCities, -1) == Success(|cities|)
    ensures forall i :: 0 <= i < |order| ==> ReadCity(saved, i) == Success(cities[order[i]])
  {
    var values := InOrder(cities, order);
    var start := prefs[NumberOfCities := IntValue(|cities|)];
    var editor := start;
    var count := 0;
    while count < |order|
      invariant count <= |order|
      invariant editor == WritePrefix(start, values, count)
    {
      editor := WriteCity(editor, values[count], count);
      count := count + 1;
    }
    saved := editor;
    SavedCount(prefs, |cities|, values);
    SavedCitiesReadBack(prefs, |cities|, values);
  }

  /** Every saved city reads back at its index, so each city has exactly one index. */
  lemma SavedCitiesReadBack(p: Prefs, count: int, cities: seq<City>)
    ensures forall i :: 0 <= i < |cities| ==> ReadCity(SavedPrefs(p, count, cities), i) == Success(cities[i])
  {
    forall i | 0 <= i < |cities|
      ensures ReadCity(SavedPrefs(p, count, cities), i) == Success(cities[i])
    {
      WritePrefixReadsBack(p[NumberOfCities := IntValue(count)], cities, |cities|, i);
    }
  }

  /** The saved count is the one written: no per-index key overwrites it. */
  lemma SavedCount(p: Prefs, count: int, cities: seq<City>)
    ensures GetInt(SavedPrefs(p, count, cities), NumberOfCities, -1) == Success(count)
  {
    forall q, i | IsCityPrefix(q) && 0 <= i < |cities|
      ensures NumberOfCities != Key(q, i)
    {
      KeysDistinct(q, i, q, i);
    }
    WritePrefixElsewhere(p[NumberOfCities := IntValue(count)], cities, |cities|, NumberOfCities);
  }

  /** Reading the first n indices of a saved store gives the first n saved cities. */
  lemma {:induction false} ReadAllOfSaved(p: Prefs, count: int, cities: seq<City>, n: nat)
    requires n <= |cities|
    ensures ReadAll(SavedPrefs(p, count, cities), n) == Success(cities[..n])
  {
    if n > 0 {
      ReadAllOfSaved(p, count, cities, n - 1);
      WritePrefixReadsBack(p[NumberOfCities := IntValue(count)], cities, |cities|, n - 1);
      assert cities[..n - 1] + [cities[n - 1]] == cities[..n];
    }
  }

  /** Keeping complete cities whose ids are their table keys, in any order, rebuilds those entries. */
  lemma {:induction false} KeepAllInOrder(cities: CityTable, order: seq<Option<string>>)
    requires forall k :: k in order ==> k in cities
    requires forall k :: k in cities ==> cities[k].id == k && Complete(cities[k])
    ensures forall k :: k in KeepAll(InOrder(cities, order)) <==> k in order
    ensures forall k :: k in KeepAll(InOrder(cities, order)) ==> KeepAll(InOrder(cities, order))[k] == cities[k]
  {
    if order != [] {
      var front := order[..|order| - 1];
      KeepAllInOrder(cities, front);
      var values := InOrder(cities, order);
      assert values[..|values| - 1] == InOrder(cities, front);
      assert order == front + [order[|order| - 1]];
    }
  }

  /**
   * Saving a table of complete cities, each stored under its own id, and
   * reading the store back gives the same table, whatever the store held
   * before (stale entries beyond the new count are ignored).
   */
  lemma SaveThenRead(p: Prefs, cities: CityTable, order: seq<Option<string>>)
    requires IsOrderOf(order, cities)
    requires forall k :: k in cities ==> cities[k].id == k && Complete(cities[k])
    ensures ReadTable(SavedPrefs(p, |cities|, InOrder(cities, order))) == Success(cities)
  {
    var values := InOrder(cities, order);
    var saved := SavedPrefs(p, |cities|, values);
    SavedCount(p, |cities|, values);
    if |cities| > 0 {
      ReadAllOfSaved(p, |cities|, values, |values|);
      assert values[..|values|] == values;
      KeepAllInOrder(cities, order);
      var table := KeepAll(values);
      assert table.Keys == cities.Keys;
      assert table == cities;
      assert ReadAll(saved, |cities|) == Success(values);
    }
  }
}
