/** The signature database the scanner consults. Its contents come from the
    `signatures` module of the program, which is not part of this model: the
    scanner receives a `Database` value and never changes it. Regular
    expressions are kept as their source text; what it means for one to match
    is decided by the `test` function the scanner is given. */
module Signatures {

  import opened Wrappers

  datatype MalwareType = WebShell | Virus | MaliciousCode

  datatype ImpactLevel = High | Medium | Low

  /** A regular expression, by its source text. */
  datatype Regex = Regex(source: string)

  /** One content rule: `{id, type, impact, expr}`. */
  datatype Signature = Signature(id: int, malware: MalwareType, impact: ImpactLevel, expr: Regex)

  /** `db.path`: lower-case file names that identify a web shell by name alone;
      `db.re`: content rules, in priority order. */
  datatype Database = Database(paths: seq<string>, re: seq<Signature>)

  /** The lowest index of a rule whose expression matches `text`, if any. */
  function FirstMatch(test: (Regex, string) -> bool, re: seq<Signature>, text: string): (r: Option<nat>)
    ensures r.Some? ==> r.value < |re| && test(re[r.value].expr, text)
    ensures r.Some? ==> forall j :: 0 <= j < r.value ==> !test(re[j].expr, text)
    ensures r.None? <==> forall j :: 0 <= j < |re| ==> !test(re[j].expr, text)
  {
    if re == [] then None
    else if test(re[0].expr, text) then Some(0)
    else
      match FirstMatch(test, re[1..], text)
      case None => None
      case Some(k) => Some(k + 1)
  }

  /** The indices of the rules whose expression matches `text`. */
  ghost function Matching(test: (Regex, string) -> bool, re: seq<Signature>, text: string): set<int>
  {
    set j | 0 <= j < |re| && test(re[j].expr, text)
  }

  /** How many rules match `text`. */
  function MatchCount(test: (Regex, string) -> bool, re: seq<Signature>, text: string): (n: nat)
    ensures n == |Matching(test, re, text)|
    ensures n <= |re|
    ensures n == 0 <==> forall j :: 0 <= j < |re| ==> !test(re[j].expr, text)
  {
    if re == [] then 0
    else
      var init, last := re[..|re| - 1], |re| - 1;
      var hit := test(re[last].expr, text);
      assert Matching(test, re, text) == Matching(test, init, text) + (if hit then {last} else {});
      assert last !in Matching(test, init, text);
      MatchCount(test, init, text) + (if hit then 1 else 0)
  }
}
