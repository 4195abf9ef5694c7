/**
 * The template registry: a table from format name to the markup the
 * renderer instantiates, with a DEFAULT fallback, guarded additions and
 * updates, and a rewrite that puts a shared style on every template's
 * first `<div`.
 *
 * The markup of the twelve built-in templates is presentation and enters
 * as a parameter. A stored template is a JavaScript value: `updateTemplate`
 * accepts any value, so a non-string can end up in the table.
 */
module Templates {
  import opened Json
  import Utils

  /** The built-in templates, in the order the registry lists them. */
  const BuiltInNames: seq<string> :=
    ["IMAGE", "PRODUCT", "OFFERWALL", "MINITOON", "MICRO", "SPLASH", "BIG",
     "NATIVE_VIDEO", "NATIVE_IMAGE", "NATIVE_FEED", "BANNER_IMAGE", "DEFAULT"]

  predicate Distinct(names: seq<string>) {
    forall i, j :: 0 <= i < j < |names| ==> names[i] != names[j]
  }

  lemma BuiltInNamesDistinct()
    ensures Distinct(BuiltInNames)
    ensures |BuiltInNames| == 12 && BuiltInNames[11] == "DEFAULT"
  {
  }

  /** The table the registry starts with: each built-in name with its markup. */
  function Table(names: seq<string>, markup: seq<string>): (t: map<string, Value>)
    requires |names| == |markup|
    ensures forall k :: k in t <==> k in names
    ensures Distinct(names) ==> forall i :: 0 <= i < |names| ==> t[names[i]] == Str(markup[i])
  {
    if names == [] then map[]
    else
      var n := |names| - 1;
      var t := Table(names[..n], markup[..n]);
      assert forall i :: 0 <= i < n ==> names[..n][i] == names[i];
      t[names[n] := Str(markup[n])]
  }

  /** One `prop: value;` piece of the style attribute. */
  function Declaration(entry: (string, string)): string {
    entry.0 + ": " + entry.1 + ";"
  }

  /** The declarations of the style entries, joined by single spaces. */
  function StyleString(entries: seq<(string, string)>): string {
    if entries == [] then ""
    else if |entries| == 1 then Declaration(entries[0])
    else StyleString(entries[..|entries| - 1]) + " " + Declaration(entries[|entries| - 1])
  }

  /** Joining: no entries give '', one entry its declaration, and each further one a space and its declaration. */
  lemma StyleStringJoins(entries: seq<(string, string)>, entry: (string, string))
    ensures StyleString([]) == ""
    ensures StyleString([entry]) == Declaration(entry)
    ensures entries != [] ==> StyleString(entries + [entry]) == StyleString(entries) + " " + Declaration(entry)
  {
    assert (entries + [entry])[..|entries|] == entries;
  }

  /** A template with the style put on its first `<div`. */
  function Styled(template: string, style: string): (r: string)
    ensures (forall j: nat :: !Utils.OccursAt(template, "<div", j)) ==> r == template
    ensures forall i: nat :: Utils.FirstAt(template, "<div", i) ==>
              r == template[..i] + "<div style=\"" + style + "\"" + template[i + 4..]
  {
    Utils.ReplaceFirst(template, "<div", "<div style=\"" + style + "\"")
  }

  /**
   * The table after the style rewrite has visited the first `n` names: those
   * templates are styled, the rest as they were.
   */
  function StyledUpTo(t: map<string, Value>, names: seq<string>, n: nat, style: string): map<string, Value>
    requires n <= |names|
    requires forall i :: 0 <= i < n ==> names[i] in t && t[names[i]].Str?
  {
    map k | k in t :: if k in names[..n] then Str(Styled(t[k].s, style)) else t[k]
  }

  lemma StyledUpToNothing(t: map<string, Value>, names: seq<string>, style: string)
    ensures StyledUpTo(t, names, 0, style) == t
  {
  }

  /** Styling keeps the set of names. */
  lemma StyledUpToKeys(t: map<string, Value>, names: seq<string>, n: nat, style: string)
    requires n <= |names|
    requires forall i :: 0 <= i < n ==> names[i] in t && t[names[i]].Str?
    ensures StyledUpTo(t, names, n, style).Keys == t.Keys
  {
  }

  /** Visiting one more name styles that template and nothing else. */
  lemma StyledUpToStep(t: map<string, Value>, names: seq<string>, n: nat, style: string)
    requires Distinct(names) && n < |names|
    requires forall i :: 0 <= i <= n ==> names[i] in t && t[names[i]].Str?
    ensures StyledUpTo(t, names, n + 1, style)
            == StyledUpTo(t, names, n, style)[names[n] := Str(Styled(t[names[n]].s, style))]
  {
    assert names[..n + 1] == names[..n] + [names[n]];
    assert names[n] !in names[..n];
  }

  /** The table's template for a name when it is truthy, else DEFAULT's. */
  function Resolve(templates: map<string, Value>, name: string): Value {
    Or(Lookup(templates, name), Lookup(templates, "DEFAULT"))
  }

  class TemplateManager {
    /** The names in the order `Object.keys` lists them: the order they were added. */
    var names: seq<string>
    var templates: map<string, Value>

    /** Every name is listed once, and the listed names are exactly the table's keys. */
    ghost predicate Valid()
      reads this
    {
      Distinct(names) && forall k :: k in templates <==> k in names
    }

    constructor(markup: seq<string>)
      requires |markup| == |BuiltInNames|
      ensures Valid()
      ensures names == BuiltInNames
      ensures forall i :: 0 <= i < |BuiltInNames| ==> templates[BuiltInNames[i]] == Str(markup[i])
    {
      BuiltInNamesDistinct();
      names := BuiltInNames;
      templates := Table(BuiltInNames, markup);
    }

    /** getTemplate: the stored template when it is truthy, else DEFAULT's. */
    function GetTemplate(name: string): (r: Value)
      reads this
      ensures name in templates && Truthy(templates[name]) ==> r == templates[name]
      ensures !(name in templates && Truthy(templates[name])) ==> r == Lookup(templates, "DEFAULT")
    {
      Resolve(templates, name)
    }

    /** getTemplateNames: every registered name once, in the order added. */
    function GetTemplateNames(): (r: seq<string>)
      reads this
      requires Valid()
      ensures Distinct(r)
      ensures r == names
      ensures forall k :: k in r <==> k in templates
    {
      names
    }

    /**
     * addTemplate: throws (false) unless both arguments are strings;
     * otherwise stores the template under the name, a new name at the end.
     */
    method AddTemplate(name: Value, html: Value) returns (added: bool)
      requires Valid()
      modifies this
      ensures Valid()
      ensures added <==> name.Str? && html.Str?
      ensures added ==> templates == old(templates)[name.s := html]
      ensures added ==> names == if name.s in old(templates) then old(names) else old(names) + [name.s]
      ensures !added ==> templates == old(templates) && names == old(names)
    {
      if !name.Str? || !html.Str? {
        return false;
      }
      if name.s !in templates {
        names := names + [name.s];
      }
      templates := templates[name.s := html];
      return true;
    }

    /**
     * updateTemplate: false and no change when the name has no truthy
     * template; otherwise the template is replaced by any value given.
     */
    method UpdateTemplate(name: string, html: Value) returns (updated: bool)
      requires Valid()
      modifies this
      ensures Valid()
      ensures updated <==> name in old(templates) && Truthy(old(templates)[name])
      ensures updated ==> templates == old(templates)[name := html]
      ensures !updated ==> templates == old(templates)
      ensures names == old(names)
    {
      if !Truthy(Lookup(templates, name)) {
        return false;
      }
      templates := templates[name := html];
      return true;
    }

    /**
     * applyGlobalStyles: throws (false, no change) when the styles are not
     * an object; otherwise puts `style="…"` on the first `<div` of every
     * template, in name order. A template that is not a string makes the
     * rewrite throw there, after the names before it were rewritten.
     * `styles` holds the object's entries in enumeration order, each value
     * already converted by `String`.
     */
    method ApplyGlobalStyles(styles: Option<seq<(string, string)>>) returns (completed: bool)
      requires Valid()
      modifies this
      ensures Valid()
      ensures names == old(names)
      ensures templates.Keys == old(templates).Keys
      ensures completed <==> styles.Some? && forall k :: k in old(templates) ==> old(templates)[k].Str?
      ensures completed ==> templates == StyledUpTo(old(templates), names, |names|, StyleString(styles.value))
      ensures styles.None? ==> templates == old(templates)
      ensures styles.Some? && !completed ==>
                exists n :: 0 <= n < |names| && !old(templates)[names[n]].Str?
                            && (forall i :: 0 <= i < n ==> old(templates)[names[i]].Str?)
                            && templates == StyledUpTo(old(templates), names, n, StyleString(styles.value))
    {
      if styles.None? {
        return false;
      }
      var style := StyleString(styles.value);
      var i := 0;
      StyledUpToNothing(templates, names, style);
      while i < |names|
        invariant names == old(names) && 0 <= i <= |names|
        invariant forall j :: 0 <= j < i ==> old(templates)[names[j]].Str?
        invariant templates == StyledUpTo(old(templates), names, i, style)
      {
        var key := names[i];
        var template := templates[key];
        assert template == old(templates)[key] by {
          assert key !in names[..i];
        }
        if !template.Str? {
          assert 0 <= i < |names| && !old(templates)[names[i]].Str?;
          return false;
        }
        StyledUpToStep(old(templates), names, i, style);
        StyledUpToKeys(old(templates), names, i + 1, style);
        templates := templates[key := Str(Styled(template.s, style))];
        i := i + 1;
      }
      assert names[..i] == names;
      assert forall k :: k in old(templates) ==> old(templates)[k].Str? by {
        forall k | k in old(templates) ensures old(templates)[k].Str? {
          var j :| 0 <= j < |names| && names[j] == k;
        }
      }
      return true;
    }
  }

  /** The style rewrite keeps a template without `<div` as it is and changes nothing before its first `<div`. */
  lemma StyledKeepsPrefix(template: string, style: string, i: nat)
    requires Utils.FirstAt(template, "<div", i)
    ensures Styled(template, style)[..i] == template[..i]
    ensures Utils.OccursAt(Styled(template, style), "<div style=\"", i)
  {
    var r := Styled(template, style);
    assert r == template[..i] + ("<div style=\"" + style + "\"") + template[i + 4..];
    assert r[i..i + 12] == "<div style=\"";
  }
}
