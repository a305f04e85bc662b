/** Reconciling the metadata of the LiF row database with the rows it holds
    (tools/db/metadata.py): collect the distinct values of the categorical
    columns user, subset_name, task and used_in, find the ones the metadata's
    vocabulary does not record yet, and record them with the descriptions the
    user types in.

    The nested dictionary `metadata["keys"]` is an object (`KeyTable`) that a
    shallow `metadata.copy()` shares, so an update through the copy is seen
    through the original too. What the user types at each `input()` prompt is
    a sequence of lines; running out of lines is Python's EOFError. */
module Metadata {
  import opened Common
  import opened Text

  // ---------------------------------------------------------------------------
  // Data model
  // ---------------------------------------------------------------------------

  /** What `metadata["keys"][key]["values"][value]` holds: a description (None
      when a task is left undescribed), or the record of a user. */
  datatype Entry =
    | Description(text: Option<string>)
    | Person(fields: map<string, Option<string>>)

  datatype Error =
    | KeyError(key: string)
    | ValueError(message: string)
    | NotImplementedError(message: string)
    | EOFError

  datatype Outcome = Done | Raised(error: Error)

  /** key -> (value -> entry): the "values" dictionaries of `metadata["keys"]`. */
  type Vocabulary = map<string, map<string, Entry>>

  /** Where a run of the reconciliation got to: the vocabulary, how it ended,
      and the typed lines it has not read. */
  datatype Session = Session(vocab: Vocabulary, outcome: Outcome, unread: seq<string>)

  /** A database row as `get_unique_values` sees it: its id and its key-value pairs. */
  datatype Row = Row(id: int, keyValues: map<string, string>)

  /** The five questions asked about a new user, in the order they are asked. */
  const UserFields: seq<string> := ["name", "surname", "email", "institution", "country"]

  /** The keys `update_metadata` reconciles, in the order it visits them. */
  const KeyOrder: seq<string> := ["user", "subset_name", "task", "used_in"]

  /** The keys `update_new_values_in_key` knows how to describe. */
  const HandledKeys: set<string> := {"user", "subset_name", "task", "used_in"}

  const MandatoryMessage: string := "A description is mandatory"
  const NotImplementedMessage: string := "The update for this key is not implemented yet"

  /** `metadata["keys"]`: the nested dictionary every shallow copy shares. */
  class KeyTable {
    var values: Vocabulary

    constructor (values: Vocabulary)
      ensures this.values == values
    {
      this.values := values;
    }
  }

  /** The top-level metadata dictionary: its "keys" entry and its "rows" count. */
  class Document {
    const keys: KeyTable
    var rows: Option<int>

    constructor (keys: KeyTable, rows: Option<int>)
      ensures this.keys == keys && this.rows == rows
    {
      this.keys := keys;
      this.rows := rows;
    }

    /** `metadata.copy()`: a new top-level dictionary that shares `keys`. */
    method Copy() returns (d: Document)
      ensures fresh(d) && d.keys == keys && d.rows == rows
    {
      d := new Document(keys, rows);
    }
  }

  // ---------------------------------------------------------------------------
  // Sequences of distinct, sorted values
  // ---------------------------------------------------------------------------

  predicate Distinct(s: seq<string>) {
    forall i, j :: 0 <= i < j < |s| ==> s[i] != s[j]
  }

  predicate StrictlyAscending(s: seq<string>) {
    forall i, j :: 0 <= i < j < |s| ==> Below(s[i], s[j])
  }

  lemma AscendingIsDistinct(s: seq<string>)
    requires StrictlyAscending(s)
    ensures Distinct(s)
  {
    forall i, j | 0 <= i < j < |s| ensures s[i] != s[j] {
      BelowIrreflexive(s[i]);
    }
  }

  /** Inserts `x` into a strictly ascending sequence, unless it is there already. */
  function Insert(x: string, s: seq<string>): (r: seq<string>)
    requires StrictlyAscending(s)
    ensures StrictlyAscending(r)
    ensures forall y :: y in r <==> y == x || y in s
  {
    if s == [] then [x]
    else if x == s[0] then s
    else if Below(x, s[0]) then
      assert forall j :: 0 < j < |s| ==> Below(x, s[j]) by {
        forall j | 0 < j < |s| ensures Below(x, s[j]) {
          BelowTransitive(x, s[0], s[j]);
        }
      }
      [x] + s
    else
      var tail := Insert(x, s[1..]);
      BelowTotal(x, s[0]);
      assert forall y :: y in tail ==> Below(s[0], y) by {
        forall y | y in tail ensures Below(s[0], y) {
          if y != x {
            var j :| 0 <= j < |s[1..]| && s[1..][j] == y;
            assert s[j + 1] == y;
          }
        }
      }
      [s[0]] + tail
  }

  /** What `np.unique(values).tolist()` returns: the distinct values, sorted. */
  function SortedUnique(values: seq<string>): (r: seq<string>)
    ensures StrictlyAscending(r)
    ensures forall y :: y in r <==> y in values
  {
    if values == [] then []
    else
      var init := values[..|values| - 1];
      assert forall y :: y in values <==> y in init || y == values[|values| - 1] by {
        assert values == init + [values[|values| - 1]];
      }
      Insert(values[|values| - 1], SortedUnique(init))
  }

  // ---------------------------------------------------------------------------
  // get_unique_values
  // ---------------------------------------------------------------------------

  /** The rows `db.select(f"id<{n_row*10}")` yields that have the key. */
  predicate Selected(row: Row, nRow: int, key: string) {
    row.id < nRow * 10 && key in row.keyValues
  }

  /** The values the loop of `get_unique_values` appends, in row order. */
  function Collected(rows: seq<Row>, nRow: int, key: string): seq<string>
  {
    if rows == [] then []
    else
      var last := rows[|rows| - 1];
      Collected(rows[..|rows| - 1], nRow, key)
        + (if Selected(last, nRow, key) then [last.keyValues[key]] else [])
  }

  lemma {:induction false} CollectedIff(rows: seq<Row>, nRow: int, key: string, v: string)
    ensures v in Collected(rows, nRow, key)
        <==> exists i :: 0 <= i < |rows| && Selected(rows[i], nRow, key) && rows[i].keyValues[key] == v
  {
    if rows != [] {
      var init := rows[..|rows| - 1];
      CollectedIff(init, nRow, key, v);
      if exists i :: 0 <= i < |rows| && Selected(rows[i], nRow, key) && rows[i].keyValues[key] == v {
        var i :| 0 <= i < |rows| && Selected(rows[i], nRow, key) && rows[i].keyValues[key] == v;
        if i < |init| {
          assert init[i] == rows[i];
        }
      }
      if exists i :: 0 <= i < |init| && Selected(init[i], nRow, key) && init[i].keyValues[key] == v {
        var i :| 0 <= i < |init| && Selected(init[i], nRow, key) && init[i].keyValues[key] == v;
        assert rows[i] == init[i];
      }
    }
  }

  /** What `get_unique_values(db, key)` returns for a database holding `rows`. */
  function UniqueValues(rows: seq<Row>, key: string): seq<string> {
    SortedUnique(Collected(rows, |rows|, key))
  }

  /** The unique values are sorted, and a value is among them exactly when a
      row with an id below ten times the row count carries it under `key`. */
  lemma UniqueValuesIff(rows: seq<Row>, key: string, v: string)
    ensures StrictlyAscending(UniqueValues(rows, key))
    ensures v in UniqueValues(rows, key)
        <==> exists i :: 0 <= i < |rows| && Selected(rows[i], |rows|, key) && rows[i].keyValues[key] == v
  {
    CollectedIff(rows, |rows|, key, v);
  }

  /** `get_unique_values`; `rows` is the database in `select` order. */
  method GetUniqueValues(rows: seq<Row>, key: string) returns (values: seq<string>)
    ensures values == UniqueValues(rows, key)
    ensures StrictlyAscending(values)
  {
    var collected: seq<string> := [];
    var nRow := |rows|;
    var i := 0;
    while i < |rows|
      invariant 0 <= i <= |rows|
      invariant collected == Collected(rows[..i], nRow, key)
    {
      var row := rows[i];
      assert rows[..i + 1][..i] == rows[..i];
      if row.id < nRow * 10 {
        // row[key] raises AttributeError for a missing key, which skips the row
        if key in row.keyValues {
          collected := collected + [row.keyValues[key]];
        }
      }
      i := i + 1;
    }
    assert rows[..|rows|] == rows;
    values := SortedUnique(collected);
  }

  // ---------------------------------------------------------------------------
  // get_new_values_in_key
  // ---------------------------------------------------------------------------

  /** The entries of `values` that are not in `recorded`, in input order. */
  function NewValues(values: seq<string>, recorded: set<string>): (r: seq<string>)
    ensures |r| <= |values|
  {
    if values == [] then []
    else
      var last := values[|values| - 1];
      NewValues(values[..|values| - 1], recorded) + (if last in recorded then [] else [last])
  }

  /** A value is new exactly when it is among the values and not recorded. */
  lemma {:induction false} NewValuesIff(values: seq<string>, recorded: set<string>)
    ensures forall v :: v in NewValues(values, recorded) <==> v in values && v !in recorded
  {
    if values != [] {
      var init := values[..|values| - 1];
      NewValuesIff(init, recorded);
      assert values == init + [values[|values| - 1]];
    }
  }

  /** The filter keeps input order: it distributes over concatenation. */
  lemma {:induction false} NewValuesConcat(a: seq<string>, b: seq<string>, recorded: set<string>)
    ensures NewValues(a + b, recorded) == NewValues(a, recorded) + NewValues(b, recorded)
    decreases |b|
  {
    if b == [] {
      assert a + b == a;
    } else {
      var init, last := b[..|b| - 1], b[|b| - 1];
      var ab := a + b;
      var keep := if last in recorded then [] else [last];
      NewValuesConcat(a, init, recorded);
      assert ab[..|ab| - 1] == a + init && ab[|ab| - 1] == last;
      assert NewValues(ab, recorded) == NewValues(a + init, recorded) + keep;
      assert NewValues(b, recorded) == NewValues(init, recorded) + keep;
    }
  }

  /** A sorted input gives a sorted, hence duplicate-free, result. */
  lemma {:induction false} NewValuesAscending(values: seq<string>, recorded: set<string>)
    requires StrictlyAscending(values)
    ensures StrictlyAscending(NewValues(values, recorded))
  {
    if values != [] {
      var last := values[|values| - 1];
      var init := values[..|values| - 1];
      NewValuesAscending(init, recorded);
      NewValuesIff(init, recorded);
      var r := NewValues(init, recorded);
      forall i | 0 <= i < |r| ensures Below(r[i], last) {
        assert r[i] in init;
        var j :| 0 <= j < |init| && init[j] == r[i];
        assert values[j] == r[i];
      }
    }
  }

  /** `get_new_values_in_key`: a KeyError when the metadata has no such key,
      otherwise the values not yet recorded under it. */
  method GetNewValuesInKey(metadata: Document, key: string, values: seq<string>)
    returns (r: Result<seq<string>, Error>)
    ensures key !in metadata.keys.values ==> r == Err(KeyError(key))
    ensures key in metadata.keys.values ==> r == Ok(NewValues(values, metadata.keys.values[key].Keys))
  {
    if key !in metadata.keys.values {
      return Err(KeyError(key));
    }
    var oldMetadata := metadata.keys.values[key].Keys;
    var newValues: seq<string> := [];
    for i := 0 to |values|
      invariant newValues == NewValues(values[..i], oldMetadata)
    {
      assert values[..i + 1][..i] == values[..i];
      if values[i] !in oldMetadata {
        newValues := newValues + [values[i]];
      }
    }
    assert values[..|values|] == values;
    return Ok(newValues);
  }

  // ---------------------------------------------------------------------------
  // update_new_values_in_key
  // ---------------------------------------------------------------------------

  /** An empty answer is stored as None, any other answer verbatim. */
  function AnswerOrNone(answer: string): (r: Option<string>)
    ensures r == None <==> answer == ""
    ensures r.Some? ==> r.value == answer
  {
    if answer == "" then None else Some(answer)
  }

  /** The record of a new user once the first |answers| questions are answered. */
  function PersonRecord(answers: seq<string>): map<string, Option<string>>
    requires |answers| <= |UserFields|
  {
    if answers == [] then map[]
    else
      PersonRecord(answers[..|answers| - 1])[UserFields[|answers| - 1] := AnswerOrNone(answers[|answers| - 1])]
  }

  /** Answering question `j` adds field `j` to the record of the first `j` answers. */
  lemma PersonRecordStep(answers: seq<string>, j: nat)
    requires j < |UserFields| && j < |answers|
    ensures PersonRecord(answers[..j + 1]) == PersonRecord(answers[..j])[UserFields[j] := AnswerOrNone(answers[j])]
  {
    assert answers[..j + 1][..j] == answers[..j];
  }

  /** The five questions fill five different fields. */
  lemma UserFieldsDistinct()
    ensures Distinct(UserFields)
  {
    assert UserFields[0][0] == 'n' && UserFields[1][0] == 's' && UserFields[2][0] == 'e';
    assert UserFields[3][0] == 'i' && UserFields[4][0] == 'c';
  }

  /** A user's record holds one field per question answered, and each field
      holds its answer (None for an empty one). */
  lemma {:induction false} PersonRecordFields(answers: seq<string>)
    requires |answers| <= |UserFields|
    ensures PersonRecord(answers).Keys == set i | 0 <= i < |answers| :: UserFields[i]
    ensures forall i :: 0 <= i < |answers| ==> PersonRecord(answers)[UserFields[i]] == AnswerOrNone(answers[i])
  {
    if answers != [] {
      var n := |answers| - 1;
      var init := answers[..n];
      PersonRecordFields(init);
      UserFieldsDistinct();
      forall i | 0 <= i < n ensures PersonRecord(answers)[UserFields[i]] == AnswerOrNone(answers[i]) {
        assert UserFields[i] != UserFields[n];
        assert init[i] == answers[i];
      }
    }
  }

  /** With all five questions answered, the fields are exactly name,
      surname, email, institution and country. */
  lemma CompletePersonRecordFields(answers: seq<string>)
    requires |answers| == |UserFields|
    ensures PersonRecord(answers).Keys == {"name", "surname", "email", "institution", "country"}
  {
    PersonRecordFields(answers);
    assert (set i | 0 <= i < 5 :: UserFields[i]) == {"name", "surname", "email", "institution", "country"} by {
      assert UserFields[0] == "name" && UserFields[1] == "surname" && UserFields[2] == "email";
      assert UserFields[3] == "institution" && UserFields[4] == "country";
    }
  }

  /** The loop of `update_new_values_in_key` for a handled key, value by value. */
  function AddValues(vocab: Vocabulary, key: string, newValues: seq<string>, answers: seq<string>): Session
    requires key in HandledKeys
    decreases |newValues|
  {
    if newValues == [] then Session(vocab, Done, answers)
    else
      var value := newValues[0];
      if key == "user" then
        // values[value] = {} comes before any question is asked
        if key !in vocab then Session(vocab, Raised(KeyError(key)), answers)
        else if |answers| < |UserFields| then
          Session(vocab[key := vocab[key][value := Person(PersonRecord(answers))]], Raised(EOFError), [])
        else
          AddValues(vocab[key := vocab[key][value := Person(PersonRecord(answers[..5]))]],
                    key, newValues[1..], answers[5..])
      else if answers == [] then Session(vocab, Raised(EOFError), [])
      else if answers[0] == "" && key != "task" then
        Session(vocab, Raised(ValueError(MandatoryMessage)), answers[1..])
      else if key !in vocab then Session(vocab, Raised(KeyError(key)), answers[1..])
      else
        AddValues(vocab[key := vocab[key][value := Description(AnswerOrNone(answers[0]))]],
                  key, newValues[1..], answers[1..])
  }

  /** `update_new_values_in_key` as a function of the vocabulary. */
  function UpdateNewValues(vocab: Vocabulary, key: string, newValues: seq<string>, answers: seq<string>): Session
  {
    if key in HandledKeys then AddValues(vocab, key, newValues, answers)
    else if key == "else" then Session(vocab, Raised(NotImplementedError(NotImplementedMessage)), answers)
    else Session(vocab, Done, answers)
  }

  /** The five `input()` prompts for one new user, each answer stored into
      the record `values[value]`, which starts out empty. */
  method AskUser(table: KeyTable, value: string, answers: seq<string>) returns (outcome: Outcome, unread: seq<string>)
    requires "user" in table.values
    modifies table
    ensures var asked := if |answers| < |UserFields| then answers else answers[..|UserFields|];
      table.values == old(table.values)["user" := old(table.values)["user"][value := Person(PersonRecord(asked))]]
    ensures outcome == if |answers| < |UserFields| then Raised(EOFError) else Done
    ensures unread == if |answers| < |UserFields| then [] else answers[|UserFields|..]
  {
    var key := "user";
    ghost var before := table.values;
    table.values := table.values[key := table.values[key][value := Person(map[])]];
    outcome, unread := Done, answers;
    var j := 0;
    while j < |UserFields|
      invariant 0 <= j <= |UserFields| && j <= |answers|
      invariant unread == answers[j..]
      invariant table.values == before[key := before[key][value := Person(PersonRecord(answers[..j]))]]
    {
      if unread == [] {
        assert answers[..j] == answers;
        outcome := Raised(EOFError);
        return;
      }
      var userInput := unread[0];
      unread := unread[1..];
      PersonRecordStep(answers, j);
      ghost var record := PersonRecord(answers[..j + 1]);
      var person := table.values[key][value].fields;
      table.values := table.values[key := table.values[key][value := Person(person[UserFields[j] := AnswerOrNone(userInput)])]];
      assert table.values[key] == before[key][value := Person(record)];
      j := j + 1;
    }
  }

  /** The "user" branch of `update_new_values_in_key`. */
  method AddUsers(table: KeyTable, newValues: seq<string>, answers: seq<string>) returns (outcome: Outcome, unread: seq<string>)
    modifies table
    ensures Session(table.values, outcome, unread) == AddValues(old(table.values), "user", newValues, answers)
  {
    var key := "user";
    outcome, unread := Done, answers;
    var i := 0;
    while i < |newValues|
      invariant 0 <= i <= |newValues|
      invariant outcome == Done
      invariant AddValues(old(table.values), key, newValues, answers)
             == AddValues(table.values, key, newValues[i..], unread)
    {
      var value := newValues[i];
      assert newValues[i..][1..] == newValues[i + 1..];
      if key !in table.values {
        outcome := Raised(KeyError(key));
        return;
      }
      outcome, unread := AskUser(table, value, unread);
      if outcome.Raised? {
        return;
      }
      i := i + 1;
    }
  }

  /** The subset_name, task and used_in branches of `update_new_values_in_key`:
      one `input()` per new value, refused when empty except for a task. */
  method AddDescriptions(table: KeyTable, key: string, newValues: seq<string>, answers: seq<string>)
    returns (outcome: Outcome, unread: seq<string>)
    requires key in {"subset_name", "task", "used_in"}
    modifies table
    ensures Session(table.values, outcome, unread) == AddValues(old(table.values), key, newValues, answers)
  {
    outcome, unread := Done, answers;
    var i := 0;
    while i < |newValues|
      invariant 0 <= i <= |newValues|
      invariant AddValues(old(table.values), key, newValues, answers)
             == AddValues(table.values, key, newValues[i..], unread)
    {
      var value := newValues[i];
      assert newValues[i..][1..] == newValues[i + 1..];
      if unread == [] {
        outcome := Raised(EOFError);
        return;
      }
      var userInput := unread[0];
      unread := unread[1..];
      if userInput == "" && key != "task" {
        outcome := Raised(ValueError(MandatoryMessage));
        return;
      }
      if key !in table.values {
        outcome := Raised(KeyError(key));
        return;
      }
      table.values := table.values[key := table.values[key][value := Description(AnswerOrNone(userInput))]];
      i := i + 1;
    }
  }

  /** `update_new_values_in_key(metadata, key, new_values)`. The result is a
      fresh top-level copy, but the entries land in the shared `keys` table,
      so the caller's dictionary sees them too, also when an exception cuts
      the update short. */
  method UpdateNewValuesInKey(metadata: Document, key: string, newValues: seq<string>, answers: seq<string>)
    returns (newMetadata: Document, outcome: Outcome, unread: seq<string>)
    modifies metadata.keys
    ensures fresh(newMetadata) && newMetadata.keys == metadata.keys && newMetadata.rows == metadata.rows
    ensures Session(metadata.keys.values, outcome, unread)
         == UpdateNewValues(old(metadata.keys.values), key, newValues, answers)
  {
    newMetadata := metadata.Copy();
    outcome, unread := Done, answers;
    if key == "user" {
      outcome, unread := AddUsers(newMetadata.keys, newValues, answers);
    } else if key == "subset_name" || key == "task" || key == "used_in" {
      outcome, unread := AddDescriptions(newMetadata.keys, key, newValues, answers);
    } else if key == "else" {
      outcome := Raised(NotImplementedError(NotImplementedMessage));
    }
  }

  // ---------------------------------------------------------------------------
  // What update_new_values_in_key guarantees
  // ---------------------------------------------------------------------------

  /** Only the entries of the new values are written: every other key is
      left alone, every other value of `key` keeps its entry, and a finished
      update has recorded every new value. */
  lemma {:induction false} AddValuesFrame(vocab: Vocabulary, key: string, newValues: seq<string>, answers: seq<string>)
    requires key in HandledKeys
    ensures var u := AddValues(vocab, key, newValues, answers);
      && u.vocab.Keys == vocab.Keys
      && (forall k :: k in vocab && k != key ==> u.vocab[k] == vocab[k])
      && (key in vocab ==> vocab[key].Keys <= u.vocab[key].Keys)
      && (key in vocab ==> u.vocab[key].Keys <= vocab[key].Keys + set v | v in newValues)
      && (key in vocab ==> forall v :: v in vocab[key] && v !in newValues ==> u.vocab[key][v] == vocab[key][v])
      && (u.outcome == Done ==> forall v :: v in newValues ==> key in u.vocab && v in u.vocab[key])
    decreases |newValues|
  {
    if newValues != [] {
      var value := newValues[0];
      var tail := newValues[1..];
      assert forall v :: v in newValues <==> v == value || v in tail;
      if key in vocab {
        if key == "user" && |answers| >= |UserFields| {
          AddValuesFrame(vocab[key := vocab[key][value := Person(PersonRecord(answers[..5]))]], key, tail, answers[5..]);
        } else if key != "user" && answers != [] && !(answers[0] == "" && key != "task") {
          AddValuesFrame(vocab[key := vocab[key][value := Description(AnswerOrNone(answers[0]))]], key, tail, answers[1..]);
        }
      }
    }
  }

  /** A finished update of "user" asked five questions per new value, and
      each new user's record is built from that user's five answers. */
  lemma {:induction false} AddUsersRecords(vocab: Vocabulary, newValues: seq<string>, answers: seq<string>)
    requires Distinct(newValues)
    requires AddValues(vocab, "user", newValues, answers).outcome == Done
    ensures var u := AddValues(vocab, "user", newValues, answers);
      && |answers| >= 5 * |newValues|
      && u.unread == answers[5 * |newValues|..]
      && (newValues != [] ==> "user" in u.vocab)
      && forall i :: 0 <= i < |newValues| ==>
           && newValues[i] in u.vocab["user"]
           && u.vocab["user"][newValues[i]] == Person(PersonRecord(answers[5 * i..5 * i + 5]))
    decreases |newValues|
  {
    if newValues != [] {
      var key := "user";
      var value := newValues[0];
      var tail := newValues[1..];
      assert key in vocab && |answers| >= |UserFields|;
      var next := vocab[key := vocab[key][value := Person(PersonRecord(answers[..5]))]];
      var u := AddValues(vocab, key, newValues, answers);
      assert u == AddValues(next, key, tail, answers[5..]);
      assert Distinct(tail);
      AddUsersRecords(next, tail, answers[5..]);
      AddValuesFrame(next, key, tail, answers[5..]);
      forall i | 0 <= i < |newValues|
        ensures newValues[i] in u.vocab[key]
        ensures u.vocab[key][newValues[i]] == Person(PersonRecord(answers[5 * i..5 * i + 5]))
      {
        if i == 0 {
          assert value !in tail;
          assert answers[0..5] == answers[..5];
        } else {
          assert tail[i - 1] == newValues[i];
          ShiftedAnswers(answers, i);
        }
      }
      ShiftedRest(answers, |newValues|);
    }
  }

  lemma ShiftedAnswers(answers: seq<string>, i: nat)
    requires 1 <= i && 5 * i + 5 <= |answers|
    ensures answers[5..][5 * (i - 1)..5 * (i - 1) + 5] == answers[5 * i..5 * i + 5]
  {
    var j := 5 * (i - 1);
    assert j + 5 == 5 * i;
    var a := answers[5..][j..j + 5];
    var b := answers[j + 5..j + 10];
    forall k | 0 <= k < 5 ensures a[k] == b[k] {
      assert a[k] == answers[5..][j + k] == answers[j + 5 + k];
    }
    assert a == b;
  }

  lemma ShiftedRest(answers: seq<string>, n: nat)
    requires 1 <= n && 5 * n <= |answers|
    ensures answers[5..][5 * (n - 1)..] == answers[5 * n..]
  {
    var j := 5 * (n - 1);
    assert j + 5 == 5 * n;
    assert answers[5..][j..] == answers[j + 5..];
  }

  /** Every user a finished update records has exactly the fields name,
      surname, email, institution and country, each holding its answer. */
  lemma NewUsersHaveFiveFields(vocab: Vocabulary, newValues: seq<string>, answers: seq<string>, i: nat)
    requires Distinct(newValues) && i < |newValues|
    requires AddValues(vocab, "user", newValues, answers).outcome == Done
    ensures var u := AddValues(vocab, "user", newValues, answers);
      && "user" in u.vocab && newValues[i] in u.vocab["user"] && u.vocab["user"][newValues[i]].Person?
      && u.vocab["user"][newValues[i]].fields.Keys == {"name", "surname", "email", "institution", "country"}
      && forall f :: 0 <= f < |UserFields| ==>
           5 * i + f < |answers|
           && u.vocab["user"][newValues[i]].fields[UserFields[f]] == AnswerOrNone(answers[5 * i + f])
  {
    AddUsersRecords(vocab, newValues, answers);
    var asked := answers[5 * i..5 * i + 5];
    PersonRecordFields(asked);
    CompletePersonRecordFields(asked);
    forall f | 0 <= f < |UserFields| ensures asked[f] == answers[5 * i + f] {
    }
  }

  /** A finished update of subset_name, task or used_in read one answer per
      new value and stored it as that value's description (None for an empty
      task answer); for subset_name and used_in every answer was non-empty. */
  lemma {:induction false} AddDescriptionsEntries(vocab: Vocabulary, key: string, newValues: seq<string>, answers: seq<string>)
    requires key in {"subset_name", "task", "used_in"}
    requires Distinct(newValues)
    requires AddValues(vocab, key, newValues, answers).outcome == Done
    ensures var u := AddValues(vocab, key, newValues, answers);
      && |answers| >= |newValues|
      && u.unread == answers[|newValues|..]
      && (newValues != [] ==> key in u.vocab)
      && forall i :: 0 <= i < |newValues| ==>
           && newValues[i] in u.vocab[key]
           && u.vocab[key][newValues[i]] == Description(AnswerOrNone(answers[i]))
           && (key != "task" ==> answers[i] != "")
    decreases |newValues|
  {
    if newValues != [] {
      var value := newValues[0];
      var tail := newValues[1..];
      assert key in vocab && answers != [] && (key != "task" ==> answers[0] != "");
      var next := vocab[key := vocab[key][value := Description(AnswerOrNone(answers[0]))]];
      var u := AddValues(vocab, key, newValues, answers);
      assert u == AddValues(next, key, tail, answers[1..]);
      assert Distinct(tail);
      AddDescriptionsEntries(next, key, tail, answers[1..]);
      AddValuesFrame(next, key, tail, answers[1..]);
      forall i | 0 <= i < |newValues|
        ensures newValues[i] in u.vocab[key]
        ensures u.vocab[key][newValues[i]] == Description(AnswerOrNone(answers[i]))
        ensures key != "task" ==> answers[i] != ""
      {
        if i == 0 {
          assert value !in tail;
        } else {
          assert tail[i - 1] == newValues[i];
          assert answers[1..][i - 1] == answers[i];
        }
      }
      assert answers[1..][|tail|..] == answers[|newValues|..];
    }
  }

  /** An empty description for subset_name or used_in is refused: once the
      key is recorded and enough answers were typed, an empty one among them
      makes the update raise ValueError("A description is mandatory"). */
  lemma {:induction false} EmptyDescriptionRaises(vocab: Vocabulary, key: string, newValues: seq<string>, answers: seq<string>, k: nat)
    requires key in {"subset_name", "used_in"} && key in vocab
    requires k < |newValues| && k < |answers| && answers[k] == ""
    ensures AddValues(vocab, key, newValues, answers).outcome == Raised(ValueError(MandatoryMessage))
    decreases k
  {
    if k > 0 && answers[0] != "" {
      EmptyDescriptionRaises(vocab[key := vocab[key][newValues[0] := Description(AnswerOrNone(answers[0]))]],
                             key, newValues[1..], answers[1..], k - 1);
    }
  }

  /** Keys outside user, subset_name, task and used_in record nothing; the
      literal key "else" raises NotImplementedError. */
  lemma UnhandledKeyChangesNothing(vocab: Vocabulary, key: string, newValues: seq<string>, answers: seq<string>)
    requires key !in HandledKeys
    ensures UpdateNewValues(vocab, key, newValues, answers).vocab == vocab
    ensures UpdateNewValues(vocab, key, newValues, answers).unread == answers
    ensures UpdateNewValues(vocab, key, newValues, answers).outcome
         == if key == "else" then Raised(NotImplementedError(NotImplementedMessage)) else Done
  {
  }

  // ---------------------------------------------------------------------------
  // update_metadata
  // ---------------------------------------------------------------------------

  /** The loop of `update_metadata` over `keys` as a function of the vocabulary. */
  function Reconcile(vocab: Vocabulary, rows: seq<Row>, keys: seq<string>, answers: seq<string>): Session
    decreases |keys|
  {
    if keys == [] then Session(vocab, Done, answers)
    else
      var key := keys[0];
      if key !in vocab then Session(vocab, Raised(KeyError(key)), answers)
      else
        var newValues := NewValues(UniqueValues(rows, key), vocab[key].Keys);
        if newValues == [] then Reconcile(vocab, rows, keys[1..], answers)
        else
          var u := UpdateNewValues(vocab, key, newValues, answers);
          if u.outcome.Raised? then u else Reconcile(u.vocab, rows, keys[1..], u.unread)
  }

  /** `update_metadata(db)`: checks user, subset_name, task and used_in in
      that order, records their new values, and finally sets "rows" to the
      row count. Reading and writing the JSON and YAML files is left out;
      `written` is the dictionary that would be saved. */
  method UpdateMetadata(metadata: Document, rows: seq<Row>, answers: seq<string>)
    returns (written: Document, outcome: Outcome, unread: seq<string>)
    modifies metadata.keys
    ensures written.keys == metadata.keys
    ensures Session(metadata.keys.values, outcome, unread)
         == Reconcile(old(metadata.keys.values), rows, KeyOrder, answers)
    ensures outcome == Done ==> written.rows == Some(|rows|)
  {
    var metadataNew := metadata.Copy();
    outcome, unread := Done, answers;
    var k := 0;
    while k < |KeyOrder|
      invariant 0 <= k <= |KeyOrder|
      invariant fresh(metadataNew) && metadataNew.keys == metadata.keys
      invariant Reconcile(old(metadata.keys.values), rows, KeyOrder, answers)
             == Reconcile(metadata.keys.values, rows, KeyOrder[k..], unread)
    {
      var key := KeyOrder[k];
      assert KeyOrder[k..][1..] == KeyOrder[k + 1..];
      var values := GetUniqueValues(rows, key);
      var found := GetNewValuesInKey(metadata, key, values);
      if found.Err? {
        outcome := Raised(found.error);
        written := metadataNew;
        return;
      }
      var newValues := found.value;
      if |newValues| > 0 {
        var o;
        metadataNew, o, unread := UpdateNewValuesInKey(metadataNew, key, newValues, unread);
        if o.Raised? {
          outcome := o;
          written := metadataNew;
          return;
        }
      }
      k := k + 1;
    }
    metadataNew.rows := Some(|rows|);
    written := metadataNew;
  }

  /** Reconciling never drops a key or a recorded value. */
  lemma {:induction false} ReconcileKeepsRecorded(vocab: Vocabulary, rows: seq<Row>, keys: seq<string>, answers: seq<string>)
    requires forall k :: k in keys ==> k in HandledKeys
    ensures var r := Reconcile(vocab, rows, keys, answers);
      r.vocab.Keys == vocab.Keys && forall k :: k in vocab ==> vocab[k].Keys <= r.vocab[k].Keys
    decreases |keys|
  {
    if keys != [] && keys[0] in vocab {
      var key := keys[0];
      assert key in HandledKeys;
      var newValues := NewValues(UniqueValues(rows, key), vocab[key].Keys);
      if newValues == [] {
        ReconcileKeepsRecorded(vocab, rows, keys[1..], answers);
      } else {
        var u := UpdateNewValues(vocab, key, newValues, answers);
        AddValuesFrame(vocab, key, newValues, answers);
        if !u.outcome.Raised? {
          ReconcileKeepsRecorded(u.vocab, rows, keys[1..], u.unread);
        }
      }
    }
  }

  /** After a reconciliation that finishes, every value a selected row holds
      under one of the reconciled keys is recorded in the vocabulary. */
  lemma {:induction false} ReconcileRecordsEveryValue(vocab: Vocabulary, rows: seq<Row>, keys: seq<string>, answers: seq<string>)
    requires forall k :: k in keys ==> k in HandledKeys
    requires Reconcile(vocab, rows, keys, answers).outcome == Done
    ensures var r := Reconcile(vocab, rows, keys, answers);
      forall key, v :: key in keys && v in UniqueValues(rows, key) ==> key in r.vocab && v in r.vocab[key]
    decreases |keys|
  {
    if keys != [] {
      var key := keys[0];
      assert key in HandledKeys && key in vocab;
      var r := Reconcile(vocab, rows, keys, answers);
      var newValues := NewValues(UniqueValues(rows, key), vocab[key].Keys);
      var after, unreadAfter := vocab, answers;
      if newValues != [] {
        var u := AddValues(vocab, key, newValues, answers);
        assert u == UpdateNewValues(vocab, key, newValues, answers);
        AddValuesFrame(vocab, key, newValues, answers);
        after, unreadAfter := u.vocab, u.unread;
      }
      assert r == Reconcile(after, rows, keys[1..], unreadAfter);
      assert key in after;
      NewValuesIff(UniqueValues(rows, key), vocab[key].Keys);
      forall v | v in UniqueValues(rows, key) ensures v in after[key] {
        if v !in vocab[key] {
          assert v in newValues;
        }
      }
      ReconcileRecordsEveryValue(after, rows, keys[1..], unreadAfter);
      ReconcileKeepsRecorded(after, rows, keys[1..], unreadAfter);
      forall k, v | k in keys && v in UniqueValues(rows, k) ensures k in r.vocab && v in r.vocab[k] {
        if k != key {
          assert k in keys[1..];
        }
      }
    }
  }

  /** The keys `update_metadata` visits, and what a finished run leaves: every
      user, subset name, task and used_in value of the selected rows is
      recorded. */
  lemma UpdateMetadataRecordsEveryValue(vocab: Vocabulary, rows: seq<Row>, answers: seq<string>, key: string, v: string)
    requires Reconcile(vocab, rows, KeyOrder, answers).outcome == Done
    requires key in KeyOrder
    requires exists i :: 0 <= i < |rows| && Selected(rows[i], |rows|, key) && rows[i].keyValues[key] == v
    ensures key in Reconcile(vocab, rows, KeyOrder, answers).vocab
    ensures v in Reconcile(vocab, rows, KeyOrder, answers).vocab[key]
  {
    UniqueValuesIff(rows, key, v);
    ReconcileRecordsEveryValue(vocab, rows, KeyOrder, answers);
  }
}
