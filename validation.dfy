/** What the client forms take from zod and react-hook-form: a schema check
    yields a list of issues, each on the path of a field, and the form shows
    under each field the message of the first issue on that field's path. */
module Validation {
  import opened Base

  /** One failed check: the field it is reported on and its message. */
  datatype Issue<Field> = Issue(path: Field, message: string)

  /** `z.string().min(n)`: at least `n` characters. */
  predicate MinLength(s: string, n: nat)
  {
    |s| >= n
  }

  /** The message shown under the field `path`: the message of the first issue
      reported on that path, or none when the field passed every check. */
  function FirstMessage<Field(==)>(issues: seq<Issue<Field>>, path: Field): (m: Option<string>)
    ensures m.None? <==> forall i :: 0 <= i < |issues| ==> issues[i].path != path
    ensures m.Some? ==> exists i :: 0 <= i < |issues| && issues[i] == Issue(path, m.value)
                                    && forall j :: 0 <= j < i ==> issues[j].path != path
  {
    if issues == [] then None
    else if issues[0].path == path then Some(issues[0].message)
    else
      var rest := FirstMessage(issues[1..], path);
      if rest.Some? then
        assert exists i :: 0 <= i < |issues| && issues[i] == Issue(path, rest.value)
                           && forall j :: 0 <= j < i ==> issues[j].path != path by {
          var i :| 0 <= i < |issues[1..]| && issues[1..][i] == Issue(path, rest.value)
                   && forall j :: 0 <= j < i ==> issues[1..][j].path != path;
          assert issues[i + 1] == issues[1..][i];
          forall j | 0 <= j < i + 1 ensures issues[j].path != path {
            if j > 0 {
              assert issues[j] == issues[1..][j - 1];
            }
          }
        }
        rest
      else
        assert forall i :: 1 <= i < |issues| ==> issues[i] == issues[1..][i - 1];
        rest
  }

  /** Issues on other paths in front do not change the message shown on `path`. */
  lemma {:induction false} FirstMessageSkips<Field>(other: seq<Issue<Field>>, rest: seq<Issue<Field>>, path: Field)
    requires forall i :: 0 <= i < |other| ==> other[i].path != path
    ensures FirstMessage(other + rest, path) == FirstMessage(rest, path)
    decreases |other|
  {
    if other != [] {
      var all := other + rest;
      assert all[0] == other[0];
      assert all[1..] == other[1..] + rest;
      FirstMessageSkips(other[1..], rest, path);
      calc {
        FirstMessage(all, path);
        FirstMessage(all[1..], path);
        FirstMessage(other[1..] + rest, path);
      }
    } else {
      assert other + rest == rest;
    }
  }
}
