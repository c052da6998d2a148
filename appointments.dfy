/**
 * The appointment table (src/db/appointments.js): one item per
 * (assistant number, client number) holding, under `appointments`, a map from
 * a client's display name to that client's list of bookings. The table is a
 * value that each operation receives and returns; marshalling is not
 * modelled, attribute values are kept as they are.
 */
module Appointments {
  import opened Wrappers
  import opened JsValues

  /** One booking of a client: `{service, eventId, employeeName}`. */
  datatype AppointmentRecord = AppointmentRecord(service: Value, eventId: string, employeeName: string)

  /** An attribute of a stored item: a plain value, or the `appointments` map of client lists. */
  datatype Attr = Val(v: Value) | ClientLists(lists: map<string, seq<AppointmentRecord>>)

  type Item = map<string, Attr>

  /** The table's primary key. */
  datatype Key = Key(assistantNumber: string, clientNumber: string)

  type Table = map<Key, Item>

  const AssistantField: string := "assistantNumber"
  const ClientField: string := "clientNumber"
  const AppointmentsField: string := "appointments"

  /** `{assistantNumber, clientNumber}`. */
  function KeyItem(assistantNumber: string, clientNumber: string): Item
  {
    map[AssistantField := Val(Str(assistantNumber)), ClientField := Val(Str(clientNumber))]
  }

  /** The key an item is filed under: its own two key attributes, which must be strings. */
  function KeyOf(item: Item): Option<Key>
  {
    if && AssistantField in item && item[AssistantField].Val? && item[AssistantField].v.Str?
       && ClientField in item && item[ClientField].Val? && item[ClientField].v.Str?
    then Some(Key(item[AssistantField].v.s, item[ClientField].v.s))
    else None
  }

  /** Every item sits under the key its own key attributes name. */
  ghost predicate KeysConsistent(t: Table)
  {
    forall k :: k in t ==> KeyOf(t[k]) == Some(k)
  }

  /** `{assistantNumber, clientNumber, ...data}`: fields of `data` override the key fields. */
  function PutItem(assistantNumber: string, clientNumber: string, data: Item): (item: Item)
    ensures item.Keys == data.Keys + {AssistantField, ClientField}
    ensures forall f :: f in data ==> item[f] == data[f]
    ensures AssistantField !in data ==> item[AssistantField] == Val(Str(assistantNumber))
    ensures ClientField !in data ==> item[ClientField] == Val(Str(clientNumber))
  {
    KeyItem(assistantNumber, clientNumber) + data
  }

  /**
   * `putAppointment` (lines 13-26): the item replaces whatever the table holds
   * under the item's own key; an item whose key attributes are not strings is
   * refused (None).
   */
  function PutAppointment(t: Table, assistantNumber: string, clientNumber: string, data: Item): (r: Option<Table>)
    ensures r.Some? <==> KeyOf(PutItem(assistantNumber, clientNumber, data)).Some?
    ensures r.Some? ==>
      var item := PutItem(assistantNumber, clientNumber, data);
      var k := KeyOf(item).value;
      && r.value.Keys == t.Keys + {k}
      && r.value[k] == item
      && forall k' :: k' in t && k' != k ==> r.value[k'] == t[k']
    ensures KeysConsistent(t) && r.Some? ==> KeysConsistent(r.value)
  {
    var item := PutItem(assistantNumber, clientNumber, data);
    match KeyOf(item)
    case None => None
    case Some(k) => Some(t[k := item])
  }

  /** `getAppointment` (lines 34-42): the item stored under the key, or null (None). */
  function GetAppointment(t: Table, assistantNumber: string, clientNumber: string): (r: Option<Item>)
    ensures r.Some? <==> Key(assistantNumber, clientNumber) in t
    ensures r.Some? ==> r.value == t[Key(assistantNumber, clientNumber)]
  {
    var k := Key(assistantNumber, clientNumber);
    if k in t then Some(t[k]) else None
  }

  /** `deleteAppointment` (lines 49-56): removes exactly that key. */
  function DeleteAppointment(t: Table, assistantNumber: string, clientNumber: string): (r: Table)
    ensures r.Keys == t.Keys - {Key(assistantNumber, clientNumber)}
    ensures forall k :: k in r ==> r[k] == t[k]
  {
    t - {Key(assistantNumber, clientNumber)}
  }

  /** Data without key fields is stored under the given key, and reading it back gives the key fields plus the data. */
  lemma GetAfterPut(t: Table, assistantNumber: string, clientNumber: string, data: Item)
    requires AssistantField !in data && ClientField !in data
    ensures PutAppointment(t, assistantNumber, clientNumber, data).Some?
    ensures GetAppointment(PutAppointment(t, assistantNumber, clientNumber, data).value, assistantNumber, clientNumber)
      == Some(PutItem(assistantNumber, clientNumber, data))
  {
    var item := PutItem(assistantNumber, clientNumber, data);
    assert KeyOf(item) == Some(Key(assistantNumber, clientNumber));
  }

  /**
   * Writing back an item read from a consistent table, with only non-key
   * fields changed, replaces exactly that item.
   */
  lemma PutReadBackItem(t: Table, assistantNumber: string, clientNumber: string, data: Item)
    requires KeysConsistent(t) && Key(assistantNumber, clientNumber) in t
    requires AssistantField in data && data[AssistantField] == t[Key(assistantNumber, clientNumber)][AssistantField]
    requires ClientField in data && data[ClientField] == t[Key(assistantNumber, clientNumber)][ClientField]
    ensures PutAppointment(t, assistantNumber, clientNumber, data) == Some(t[Key(assistantNumber, clientNumber) := data])
  {
    var k := Key(assistantNumber, clientNumber);
    assert KeyOf(t[k]) == Some(k);
    var item := PutItem(assistantNumber, clientNumber, data);
    assert item == data;
  }

  /** A key field in `data` sends the item to another key: here, to another client's item. */
  lemma PutOverridesKey(t: Table, assistantNumber: string, clientNumber: string, other: string)
    requires other != clientNumber
    ensures var r := PutAppointment(t, assistantNumber, clientNumber, map[ClientField := Val(Str(other))]);
      r.Some? && Key(assistantNumber, other) in r.value
      && (Key(assistantNumber, clientNumber) in r.value <==> Key(assistantNumber, clientNumber) in t)
  {
    var item := PutItem(assistantNumber, clientNumber, map[ClientField := Val(Str(other))]);
    assert KeyOf(item) == Some(Key(assistantNumber, other));
  }

  /** After a delete, the key reads as null and every other key reads as before. */
  lemma GetAfterDelete(t: Table, assistantNumber: string, clientNumber: string, a: string, c: string)
    ensures GetAppointment(DeleteAppointment(t, assistantNumber, clientNumber), a, c)
      == if a == assistantNumber && c == clientNumber then None else GetAppointment(t, a, c)
  {
  }

  /** The command `updateAppointment` sends (lines 75-81). */
  datatype UpdateCommand = UpdateCommand(key: Key, expression: string, names: map<string, string>, values: map<string, Value>)

  /** One assignment of the update expression: `#k = :k`. */
  function Clause(name: string): string
  {
    "#" + name + " = :" + name
  }

  /** `parts.join(sep)`. */
  function Join(parts: seq<string>, sep: string): (s: string)
    ensures |parts| == 0 ==> s == ""
    ensures |parts| == 1 ==> s == parts[0]
  {
    if |parts| == 0 then "" else if |parts| == 1 then parts[0] else parts[0] + sep + Join(parts[1..], sep)
  }

  /** The clauses for the entries of `newData`, in entry order. */
  function Clauses(newData: seq<(string, Value)>): (r: seq<string>)
    ensures |r| == |newData|
    ensures forall i :: 0 <= i < |newData| ==> r[i] == Clause(newData[i].0)
  {
    seq(|newData|, i requires 0 <= i < |newData| => Clause(newData[i].0))
  }

  /** The entries of a JavaScript object have distinct names. */
  predicate DistinctNames(newData: seq<(string, Value)>)
  {
    forall i, j :: 0 <= i < j < |newData| ==> newData[i].0 != newData[j].0
  }

  /** The names `p + k` for the entries `(k, v)` of `data`. */
  function Prefixed(p: string, data: seq<(string, Value)>): set<string>
  {
    if |data| == 0 then {} else Prefixed(p, data[..|data| - 1]) + {p + data[|data| - 1].0}
  }

  /** `Prefixed` holds exactly the prefixed entry names. */
  lemma {:induction false} PrefixedMembers(p: string, data: seq<(string, Value)>, x: string)
    ensures x in Prefixed(p, data) <==> exists i :: 0 <= i < |data| && x == p + data[i].0
  {
    if |data| > 0 {
      var init := data[..|data| - 1];
      PrefixedMembers(p, init, x);
      if exists i :: 0 <= i < |init| && x == p + init[i].0 {
        var i :| 0 <= i < |init| && x == p + init[i].0;
        assert data[i] == init[i];
      }
      if exists i :: 0 <= i < |data| && x == p + data[i].0 {
        var i :| 0 <= i < |data| && x == p + data[i].0;
        if i < |data| - 1 { assert init[i] == data[i]; }
      }
    }
  }

  lemma PrefixInjective(p: string, a: string, b: string)
    requires p + a == p + b
    ensures a == b
  {
    assert a == (p + a)[|p|..];
    assert b == (p + b)[|p|..];
  }

  /** `ExpressionAttributeNames` built entry by entry: `#k` names `k`. */
  function NamesOf(data: seq<(string, Value)>): map<string, string>
  {
    if |data| == 0 then map[]
    else NamesOf(data[..|data| - 1])["#" + data[|data| - 1].0 := data[|data| - 1].0]
  }

  /** `ExpressionAttributeValues` built entry by entry: `:k` holds the entry's value. */
  function ValuesOf(data: seq<(string, Value)>): map<string, Value>
  {
    if |data| == 0 then map[]
    else ValuesOf(data[..|data| - 1])[":" + data[|data| - 1].0 := data[|data| - 1].1]
  }

  /** The names map has one placeholder per entry, each naming its entry. */
  lemma {:induction false} NamesOfFacts(data: seq<(string, Value)>)
    ensures NamesOf(data).Keys == Prefixed("#", data)
    ensures forall i :: 0 <= i < |data| ==> "#" + data[i].0 in NamesOf(data) && NamesOf(data)["#" + data[i].0] == data[i].0
  {
    if |data| > 0 {
      var init := data[..|data| - 1];
      NamesOfFacts(init);
      forall i | 0 <= i < |data| ensures "#" + data[i].0 in NamesOf(data) && NamesOf(data)["#" + data[i].0] == data[i].0 {
        if i < |data| - 1 {
          assert init[i] == data[i];
          if "#" + data[i].0 == "#" + data[|data| - 1].0 { PrefixInjective("#", data[i].0, data[|data| - 1].0); }
        }
      }
    }
  }

  /** With distinct names, the values map has one placeholder per entry, each holding its entry's value. */
  lemma {:induction false} ValuesOfFacts(data: seq<(string, Value)>)
    requires DistinctNames(data)
    ensures ValuesOf(data).Keys == Prefixed(":", data)
    ensures forall i :: 0 <= i < |data| ==> ":" + data[i].0 in ValuesOf(data) && ValuesOf(data)[":" + data[i].0] == data[i].1
  {
    if |data| > 0 {
      var init := data[..|data| - 1];
      assert DistinctNames(init) by {
        forall i, j | 0 <= i < j < |init| ensures init[i].0 != init[j].0 { assert init[i] == data[i] && init[j] == data[j]; }
      }
      ValuesOfFacts(init);
      forall i | 0 <= i < |data| ensures ":" + data[i].0 in ValuesOf(data) && ValuesOf(data)[":" + data[i].0] == data[i].1 {
        if i < |data| - 1 {
          assert init[i] == data[i];
          if ":" + data[i].0 == ":" + data[|data| - 1].0 { PrefixInjective(":", data[i].0, data[|data| - 1].0); }
        }
      }
    }
  }

  /**
   * `updateAppointment` (lines 64-84): the update command built from the
   * entries of `newData` (`Object.entries(newData)`, so names are distinct).
   */
  method UpdateAppointment(assistantNumber: string, clientNumber: string, newData: seq<(string, Value)>)
    returns (command: UpdateCommand)
    requires DistinctNames(newData)
    ensures command.key == Key(assistantNumber, clientNumber)
    ensures command.expression == "SET " + Join(Clauses(newData), ", ")
    ensures command.names.Keys == Prefixed("#", newData)
    ensures forall i :: 0 <= i < |newData| ==>
      "#" + newData[i].0 in command.names && command.names["#" + newData[i].0] == newData[i].0
    ensures command.values.Keys == Prefixed(":", newData)
    ensures forall i :: 0 <= i < |newData| ==>
      ":" + newData[i].0 in command.values && command.values[":" + newData[i].0] == newData[i].1
  {
    var updateExpressions: seq<string> := [];
    var names: map<string, string> := map[];
    var values: map<string, Value> := map[];
    for i := 0 to |newData|
      invariant updateExpressions == Clauses(newData[..i])
      invariant names == NamesOf(newData[..i])
      invariant values == ValuesOf(newData[..i])
    {
      var (key, value) := newData[i];
      assert newData[..i + 1][..i] == newData[..i];
      updateExpressions := updateExpressions + [Clause(key)];
      names := names["#" + key := key];
      values := values[":" + key := value];
    }
    assert newData[..|newData|] == newData;
    NamesOfFacts(newData);
    ValuesOfFacts(newData);
    command := UpdateCommand(Key(assistantNumber, clientNumber), "SET " + Join(updateExpressions, ", "), names, values);
  }

  /** With no entries the expression is exactly "SET ". */
  lemma EmptyUpdateExpression()
    ensures "SET " + Join(Clauses([]), ", ") == "SET "
  {
  }

  /** Two entries give "SET #a = :a, #b = :b". */
  lemma TwoEntryUpdateExpression(a: string, b: string, va: Value, vb: Value)
    ensures "SET " + Join(Clauses([(a, va), (b, vb)]), ", ") == "SET #" + a + " = :" + a + ", #" + b + " = :" + b
  {
    var cs := Clauses([(a, va), (b, vb)]);
    assert cs == [Clause(a), Clause(b)];
    assert cs[1..] == [Clause(b)];
  }
}
