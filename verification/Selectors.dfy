/** Kubernetes-style label selectors. */
module Selectors {
  type Labels = map<string, string>

  /** Every selected key carries the selected value; an absent label reads as empty. */
  predicate Matches(selector: Labels, labels: Labels) {
    forall key :: key in selector ==> (if key in labels then labels[key] else "") == selector[key]
  }

  /** The selector is a map walked key by key, with an early return at the first mismatch. */
  method LabelsMatchSelector(selector: Labels, labels: Labels) returns (ok: bool)
    ensures ok <==> Matches(selector, labels)
  {
    var rest := selector.Keys;
    while rest != {}
      invariant rest <= selector.Keys
      invariant forall key :: key in selector && key !in rest ==>
                  (if key in labels then labels[key] else "") == selector[key]
    {
      var key :| key in rest;
      if (if key in labels then labels[key] else "") != selector[key] {
        return false;
      }
      rest := rest - {key};
    }
    ok := true;
  }
}
