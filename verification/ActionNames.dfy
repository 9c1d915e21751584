/** Names of actions with their prefix, and the text that an action is printed to together with its target. */
module ActionNames {
  import opened Options

  /** The position of the first dot, or the length. */
  function Dot(s: string): (k: nat)
    ensures k <= |s| && (forall i | 0 <= i < k :: s[i] != '.') && (k < |s| ==> s[k] == '.')
  {
    if s == "" || s[0] == '.' then 0 else Dot(s[1..]) + 1
  }

  function FullName(prefix: string, name: string): string {
    prefix + "." + name
  }

  /** Cuts a full name at its first dot. */
  function Split(full: string): Option<(string, string)> {
    var k := Dot(full);
    if k == |full| then None else Some((full[..k], full[k + 1..]))
  }

  lemma SplitIsFullName(full: string, prefix: string, name: string)
    ensures Split(full) == Some((prefix, name)) <==> full == FullName(prefix, name) && '.' !in prefix
  {
    var k := Dot(full);
    if full == FullName(prefix, name) && '.' !in prefix {
      assert full[|prefix|] == '.' && forall i | 0 <= i < |prefix| :: full[i] == prefix[i];
      assert k == |prefix|;
      assert full[..k] == prefix && full[k + 1..] == name;
    }
    if Split(full) == Some((prefix, name)) {
      assert full == full[..k] + "." + full[k + 1..];
    }
  }

  /** What follows the last bar. */
  function AfterLastBar(s: string): string
    requires '|' in s
  {
    if s[|s| - 1] == '|' then ""
    else AfterLastBar(s[..|s| - 1]) + [s[|s| - 1]]
  }

  /** The name of an action with its name space, if it has one. */
  function Qualified(nameSpace: Option<string>, name: string): string {
    if nameSpace.Some? then FullName(nameSpace.value, name) else name
  }

  /** An action as it is known in the table of accelerators; `target` is the printed target, if there is one. */
  function PrintActionAndTarget(nameSpace: Option<string>, name: string, target: Option<string>): Option<string> {
    if '|' in name || (nameSpace.Some? && '|' in nameSpace.value) then None
    else
      Some((if target.Some? then target.value else "") + "|"
           + (if nameSpace.Some? then nameSpace.value + "." else "") + name)
  }

  lemma {:induction false} AfterLastBarIsTheRest(before: string, rest: string)
    requires '|' !in rest
    ensures '|' in before + "|" + rest && AfterLastBar(before + "|" + rest) == rest
  {
    var s := before + "|" + rest;
    assert s[|before|] == '|';
    if rest == "" {
      assert s == before + "|";
      assert s[|s| - 1] == '|' && s[|before|] == '|';
    } else {
      var n := |rest| - 1;
      assert s[|s| - 1] == rest[n] && s[|before|] == '|';
      assert s[..|s| - 1] == before + "|" + rest[..n];
      AfterLastBarIsTheRest(before, rest[..n]);
      assert rest == rest[..n] + [rest[n]];
    }
  }

  /** Whatever the target is, the printed text leads back to the action that was printed. */
  lemma PrintedNameIsFound(nameSpace: Option<string>, name: string, target: Option<string>)
    ensures var printed := PrintActionAndTarget(nameSpace, name, target);
            && (printed == None <==> '|' in name || (nameSpace.Some? && '|' in nameSpace.value))
            && (printed.Some? ==> '|' in printed.value)
            && (printed.Some? ==>
                  AfterLastBar(printed.value) == Qualified(nameSpace, name))
  {
    var printed := PrintActionAndTarget(nameSpace, name, target);
    if printed.Some? {
      var before := if target.Some? then target.value else "";
      var rest := Qualified(nameSpace, name);
      assert printed.value == before + "|" + rest;
      AfterLastBarIsTheRest(before, rest);
    }
  }

  /** Different targets are printed differently, and so are different actions; no target is printed as nothing. */
  lemma PrintedIsUnique(
    nameSpace: Option<string>, name: string, target: Option<string>,
    nameSpace': Option<string>, name': string, target': Option<string>)
    requires PrintActionAndTarget(nameSpace, name, target).Some?
    requires PrintActionAndTarget(nameSpace', name', target') == PrintActionAndTarget(nameSpace, name, target)
    ensures Qualified(nameSpace, name) == Qualified(nameSpace', name')
    ensures (if target.Some? then target.value else "") == if target'.Some? then target'.value else ""
  {
    hide AfterLastBar, PrintActionAndTarget, FullName;
    PrintedNameIsFound(nameSpace, name, target);
    PrintedNameIsFound(nameSpace', name', target');
    PrintedIs(nameSpace, name, target);
    PrintedIs(nameSpace', name', target');
    CutBehind(if target.Some? then target.value else "", if target'.Some? then target'.value else "",
              "|" + Qualified(nameSpace, name));
  }

  lemma PrintedIs(nameSpace: Option<string>, name: string, target: Option<string>)
    requires PrintActionAndTarget(nameSpace, name, target).Some?
    ensures PrintActionAndTarget(nameSpace, name, target).value
            == (if target.Some? then target.value else "") + ("|" + Qualified(nameSpace, name))
  {
  }

  lemma CutBehind(a: string, b: string, rest: string)
    requires a + rest == b + rest
    ensures a == b
  {
    assert a == (a + rest)[..|a|] && b == (b + rest)[..|b|];
    assert |a + rest| == |b + rest|;
  }
}
