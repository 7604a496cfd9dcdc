/** Submitted form data (the Web `FormData` the server receives) and the
    string-field collection that precedes schema validation. */
module Form {
  import opened Js

  /** A form entry value: a string field or an uploaded file. */
  datatype FormValue = Text(s: string) | File(fileName: string)

  /** One entry of `formData.entries()`, in submission order. */
  type FormEntry = (string, FormValue)

  predicate IsStringEntry(entries: seq<FormEntry>, i: int, key: string)
    requires 0 <= i < |entries|
  {
    entries[i].0 == key && entries[i].1.Text?
  }

  /** `formData.get(name)`: the value of the first entry with that name, or null. */
  function FormGet(entries: seq<FormEntry>, name: string): (r: Option<FormValue>)
    ensures r.None? <==> forall i :: 0 <= i < |entries| ==> entries[i].0 != name
    ensures r.Some? ==> exists i :: 0 <= i < |entries| && entries[i] == (name, r.value)
                                   && forall j :: 0 <= j < i ==> entries[j].0 != name
    decreases |entries|
  {
    if |entries| == 0 then None
    else if entries[0].0 == name then Some(entries[0].1)
    else
      var r := FormGet(entries[1..], name);
      FirstEntryShifts(entries, name, r);
      r
  }

  /** A first entry with `name` in the tail, behind a head with another name, is
      also the first entry with `name` in the whole sequence, one index later. */
  lemma {:induction false} FirstEntryShifts(entries: seq<FormEntry>, name: string, r: Option<FormValue>)
    requires |entries| > 0 && entries[0].0 != name
    requires r.Some? ==> exists i :: 0 <= i < |entries[1..]| && entries[1..][i] == (name, r.value)
                                   && forall j :: 0 <= j < i ==> entries[1..][j].0 != name
    ensures r.Some? ==> exists i :: 0 <= i < |entries| && entries[i] == (name, r.value)
                                   && forall j :: 0 <= j < i ==> entries[j].0 != name
  {
    if r.Some? {
      var i :| 0 <= i < |entries[1..]| && entries[1..][i] == (name, r.value)
               && forall j :: 0 <= j < i ==> entries[1..][j].0 != name;
      assert entries[i + 1] == (name, r.value);
    }
  }

  /** The object the loop over `formData.entries()` builds: every string entry is
      stored under its key, later ones overwriting earlier ones; files are skipped. */
  function Collected(entries: seq<FormEntry>): map<string, string>
    decreases |entries|
  {
    if |entries| == 0 then map[]
    else
      var prev := Collected(entries[..|entries| - 1]);
      var (k, v) := entries[|entries| - 1];
      if v.Text? then prev[k := v.s] else prev
  }

  /** The entry-collection loop of `parseFormData`. */
  method CollectStringFields(entries: seq<FormEntry>) returns (obj: map<string, string>)
    ensures obj == Collected(entries)
  {
    obj := map[];
    var i := 0;
    while i < |entries|
      invariant 0 <= i <= |entries|
      invariant obj == Collected(entries[..i])
    {
      var (k, v) := entries[i];
      assert entries[..i + 1][..i] == entries[..i];
      if v.Text? {
        obj := obj[k := v.s];
      }
      i := i + 1;
    }
    assert entries[..|entries|] == entries;
  }

  /** `parseFormData(formData, schema)`: the schema's parse (abstract here; it may
      succeed or fail) is handed exactly the collected map. */
  method ParseFormData<T>(entries: seq<FormEntry>, parse: map<string, string> -> T) returns (r: T)
    ensures r == parse(Collected(entries))
  {
    var obj := CollectStringFields(entries);
    r := parse(obj);
  }

  /** A key is in the collected map iff at least one string entry carries it;
      keys that only ever carried files are absent. */
  lemma {:induction false} CollectedKeys(entries: seq<FormEntry>, key: string)
    ensures key in Collected(entries) <==>
            exists i :: 0 <= i < |entries| && IsStringEntry(entries, i, key)
    decreases |entries|
  {
    if |entries| > 0 {
      var n := |entries| - 1;
      var prefix := entries[..n];
      CollectedKeys(prefix, key);
      var last := entries[n];
      if last.0 == key && last.1.Text? {
        assert Collected(entries) == Collected(prefix)[key := last.1.s];
        assert IsStringEntry(entries, n, key);
      } else {
        assert key in Collected(entries) <==> key in Collected(prefix);
        if key in Collected(prefix) {
          var i :| 0 <= i < |prefix| && IsStringEntry(prefix, i, key);
          assert IsStringEntry(entries, i, key);
        }
        if exists i :: 0 <= i < |entries| && IsStringEntry(entries, i, key) {
          var i :| 0 <= i < |entries| && IsStringEntry(entries, i, key);
          assert i < n;
          assert IsStringEntry(prefix, i, key);
        }
      }
    }
  }

  /** The collected value of a key is that of the LAST string entry with the key. */
  lemma {:induction false} CollectedLastWins(entries: seq<FormEntry>, key: string)
    requires key in Collected(entries)
    ensures exists i :: 0 <= i < |entries| && entries[i] == (key, Text(Collected(entries)[key]))
                        && forall j :: i < j < |entries| ==> !IsStringEntry(entries, j, key)
    decreases |entries|
  {
    var n := |entries| - 1;
    var prefix := entries[..n];
    var (k, v) := entries[n];
    if k == key && v.Text? {
      assert entries[n] == (key, Text(Collected(entries)[key]));
    } else {
      CollectedLastWins(prefix, key);
      var i :| 0 <= i < |prefix| && prefix[i] == (key, Text(Collected(prefix)[key]))
               && forall j :: i < j < |prefix| ==> !IsStringEntry(prefix, j, key);
      assert entries[i] == (key, Text(Collected(entries)[key]));
      forall j | i < j < |entries|
        ensures !IsStringEntry(entries, j, key)
      {
        if j < n {
          assert !IsStringEntry(prefix, j, key);
        }
      }
    }
  }

  /** A file entry never changes what is collected. */
  lemma {:induction false} FilesIgnored(entries: seq<FormEntry>, key: string, fileName: string)
    ensures Collected(entries + [(key, File(fileName))]) == Collected(entries)
  {
    assert (entries + [(key, File(fileName))])[..|entries|] == entries;
  }
}
