/** The BeautifulSoup lookups the login code performs on a parsed page: `find` of the
    first matching element, and dictionaries built from a run of `<input>` elements. */
module Markup {
  import opened Wrappers
  import opened Sequences
  import opened Http

  /** `find('input', {'name': name})`: the first input with that name. */
  function FindInput(inputs: seq<Input>, name: string): (r: Option<Input>)
    ensures r.None? <==> forall i :: 0 <= i < |inputs| ==> inputs[i].name != Some(name)
    ensures r.Some? ==> exists i :: 0 <= i < |inputs| && inputs[i] == r.value && inputs[i].name == Some(name) &&
                                   forall j :: 0 <= j < i ==> inputs[j].name != Some(name)
  {
    match FirstMatch(inputs, (inp: Input) => inp.name == Some(name))
    case None => None
    case Some(i) => Some(inputs[i])
  }

  /** `inp.get('value', '')` of the first input named `name`, or "" when there is none. */
  function InputValueOrEmpty(inputs: seq<Input>, name: string): (v: string)
    ensures (forall i :: 0 <= i < |inputs| ==> inputs[i].name != Some(name)) ==> v == ""
    ensures forall i :: 0 <= i < |inputs| && inputs[i].name == Some(name) &&
                        (forall j :: 0 <= j < i ==> inputs[j].name != Some(name)) ==>
                        v == inputs[i].value.GetOr("")
  {
    match FindInput(inputs, name)
    case None => ""
    case Some(inp) => inp.value.GetOr("")
  }

  /** `find('form', {'id': id})` */
  function FindFormById(forms: seq<Form>, id: string): (r: Option<Form>)
    ensures r.None? <==> forall i :: 0 <= i < |forms| ==> forms[i].id != Some(id)
    ensures r.Some? ==> exists i :: 0 <= i < |forms| && forms[i] == r.value && forms[i].id == Some(id) &&
                                   forall j :: 0 <= j < i ==> forms[j].id != Some(id)
  {
    match FirstMatch(forms, (f: Form) => f.id == Some(id))
    case None => None
    case Some(i) => Some(forms[i])
  }

  /** `find('form', {'name': name}) or find('form')`: a Tag is always truthy, so the
      first form is taken only when no form has that name. */
  function FindFormByNameOrFirst(forms: seq<Form>, name: string): (r: Option<Form>)
    ensures r.None? <==> forms == []
    ensures (exists i :: 0 <= i < |forms| && forms[i].name == Some(name)) ==>
      exists i :: 0 <= i < |forms| && forms[i] == r.value && forms[i].name == Some(name) &&
                  forall j :: 0 <= j < i ==> forms[j].name != Some(name)
    ensures forms != [] && (forall i :: 0 <= i < |forms| ==> forms[i].name != Some(name)) ==> r == Some(forms[0])
  {
    match FirstMatch(forms, (f: Form) => f.name == Some(name))
    case Some(i) => Some(forms[i])
    case None => if forms == [] then None else Some(forms[0])
  }

  /** `form.get('action')` when it is truthy (present and non-empty). */
  function TruthyAction(f: Form): Option<string> {
    if f.action.Some? && f.action.value != "" then f.action else None
  }

  /** `find('a', id=id)` */
  function FindAnchorById(anchors: seq<Anchor>, id: string): (r: Option<Anchor>)
    ensures r.None? <==> forall i :: 0 <= i < |anchors| ==> anchors[i].id != Some(id)
    ensures r.Some? ==> exists i :: 0 <= i < |anchors| && anchors[i] == r.value && anchors[i].id == Some(id) &&
                                   forall j :: 0 <= j < i ==> anchors[j].id != Some(id)
  {
    match FirstMatch(anchors, (a: Anchor) => a.id == Some(id))
    case None => None
    case Some(i) => Some(anchors[i])
  }

  predicate TextContains(a: Anchor, needle: string) {
    a.text.Some? && a.text.value != "" && Contains(a.text.value, needle)
  }

  /** `find('a', string=lambda t: t and needle in t)` */
  function FindAnchorWithText(anchors: seq<Anchor>, needle: string): (r: Option<Anchor>)
    ensures r.None? <==> forall i :: 0 <= i < |anchors| ==> !TextContains(anchors[i], needle)
    ensures r.Some? ==> exists i :: 0 <= i < |anchors| && anchors[i] == r.value && TextContains(anchors[i], needle) &&
                                   forall j :: 0 <= j < i ==> !TextContains(anchors[j], needle)
  {
    match FirstMatch(anchors, (a: Anchor) => TextContains(a, needle))
    case None => None
    case Some(i) => Some(anchors[i])
  }

  /** The dictionary `{inp['name']: inp.get('value', '')}` filled from the inputs that
      `keep` selects, in document order, so that a later input overwrites an earlier one of
      the same name. */
  function FieldMap(inputs: seq<Input>, keep: Input -> bool): (m: map<string, string>)
  {
    if inputs == [] then map[]
    else
      var m := FieldMap(inputs[..|inputs| - 1], keep);
      var last := inputs[|inputs| - 1];
      if keep(last) && last.name.Some? then m[last.name.value := last.value.GetOr("")] else m
  }

  predicate KeptWithName(inp: Input, keep: Input -> bool, k: string) {
    keep(inp) && inp.name == Some(k)
  }

  /** The meaning of FieldMap: a name is a key exactly when some selected input carries it,
      and its value is that of the last such input (missing value attribute: ""). */
  lemma {:induction false} FieldMapLastWins(inputs: seq<Input>, keep: Input -> bool, k: string)
    ensures k in FieldMap(inputs, keep) <==> exists i :: 0 <= i < |inputs| && KeptWithName(inputs[i], keep, k)
    ensures k in FieldMap(inputs, keep) ==>
      exists i :: 0 <= i < |inputs| && KeptWithName(inputs[i], keep, k) &&
                  FieldMap(inputs, keep)[k] == inputs[i].value.GetOr("") &&
                  (forall j :: i < j < |inputs| ==> !KeptWithName(inputs[j], keep, k))
  {
    if inputs != [] {
      var init := inputs[..|inputs| - 1];
      var last := inputs[|inputs| - 1];
      FieldMapLastWins(init, keep, k);
      if KeptWithName(last, keep, k) {
        assert KeptWithName(inputs[|inputs| - 1], keep, k);
      } else {
        assert forall i :: 0 <= i < |init| ==> init[i] == inputs[i];
        if k in FieldMap(inputs, keep) {
          var i :| 0 <= i < |init| && KeptWithName(init[i], keep, k) &&
                   FieldMap(init, keep)[k] == init[i].value.GetOr("") &&
                   (forall j :: i < j < |init| ==> !KeptWithName(init[j], keep, k));
          assert KeptWithName(inputs[i], keep, k);
        }
      }
    }
  }
}
