/** PATCH /admin/settings writes every string-valued entry of the request body
    with `setSetting`, in the order `Object.entries` lists them (integer-like
    keys first, ascending, then the others in insertion order), and skips the
    others. These functions
    say what the settings are after such a run and which keys it names. */
module SettingsUpdate {
  import opened Base

  /** The settings after writing the string-valued entries of `entries` one
      after another; `entries` is the body as `Object.entries` lists it. */
  function ApplyEntries(settings: map<string, string>, entries: seq<(string, Json)>): map<string, string>
  {
    if entries == [] then settings
    else
      var before := ApplyEntries(settings, entries[..|entries| - 1]);
      var last := entries[|entries| - 1];
      if last.1.JStr? then before[last.0 := last.1.s] else before
  }

  /** The keys of the string-valued entries, in order (the route's `updated` list). */
  function StringKeys(entries: seq<(string, Json)>): (keys: seq<string>)
    ensures |keys| <= |entries|
  {
    if entries == [] then []
    else
      var last := entries[|entries| - 1];
      StringKeys(entries[..|entries| - 1]) + (if last.1.JStr? then [last.0] else [])
  }

  /** A key is listed exactly when some entry with that key has a string value. */
  lemma {:induction false} StringKeysListed(entries: seq<(string, Json)>, k: string)
    ensures k in StringKeys(entries) <==> exists i :: 0 <= i < |entries| && entries[i].0 == k && entries[i].1.JStr?
  {
    if entries != [] {
      var init := entries[..|entries| - 1];
      StringKeysListed(init, k);
      if exists i :: 0 <= i < |init| && init[i].0 == k && init[i].1.JStr? {
        var i :| 0 <= i < |init| && init[i].0 == k && init[i].1.JStr?;
        assert entries[i] == init[i];
      }
      if exists i :: 0 <= i < |entries| && entries[i].0 == k && entries[i].1.JStr? {
        var i :| 0 <= i < |entries| && entries[i].0 == k && entries[i].1.JStr?;
        if i < |init| {
          assert init[i] == entries[i];
        }
      }
    }
  }

  /** A key no string entry names keeps its presence and value. */
  lemma {:induction false} ApplyEntriesUntouched(settings: map<string, string>, entries: seq<(string, Json)>, k: string)
    requires k !in StringKeys(entries)
    ensures k in ApplyEntries(settings, entries) <==> k in settings
    ensures k in settings ==> ApplyEntries(settings, entries)[k] == settings[k]
  {
    if entries != [] {
      ApplyEntriesUntouched(settings, entries[..|entries| - 1], k);
    }
  }

  /** A key some string entry names ends up with the value of the last such entry. */
  lemma {:induction false} ApplyEntriesLastWins(settings: map<string, string>, entries: seq<(string, Json)>, i: int)
    requires 0 <= i < |entries| && entries[i].1.JStr?
    requires forall j :: i < j < |entries| ==> entries[j].0 != entries[i].0 || !entries[j].1.JStr?
    ensures entries[i].0 in ApplyEntries(settings, entries)
    ensures ApplyEntries(settings, entries)[entries[i].0] == entries[i].1.s
  {
    if i < |entries| - 1 {
      var init := entries[..|entries| - 1];
      assert init[i] == entries[i];
      ApplyEntriesLastWins(settings, init, i);
    }
  }

  /** With no string entry, nothing is written. */
  lemma NoStringsNoChange(settings: map<string, string>, entries: seq<(string, Json)>)
    requires StringKeys(entries) == []
    ensures ApplyEntries(settings, entries) == settings
  {
    forall k ensures k in ApplyEntries(settings, entries) <==> k in settings {
      ApplyEntriesUntouched(settings, entries, k);
    }
    forall k | k in settings ensures ApplyEntries(settings, entries)[k] == settings[k] {
      ApplyEntriesUntouched(settings, entries, k);
    }
  }
}
