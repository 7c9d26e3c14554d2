/** An ordered table of keyword rules: the shape shared by both chat
    responders, which test the lowercased message against each rule in turn
    and answer with the first rule that matches, or with a default. */
module KeywordRules {
  import opened Text

  /** `AllOf(ws)`: every keyword occurs (`a.includes(x) && b.includes(y)`);
      `AnyOf(ws)`: some keyword occurs (`a.includes(x) || a.includes(y)`). */
  datatype Pattern = AllOf(words: seq<string>) | AnyOf(words: seq<string>)

  datatype Rule<R> = Rule(pattern: Pattern, reply: R)

  function AllIncluded(text: string, words: seq<string>): (r: bool)
    ensures r <==> forall i :: 0 <= i < |words| ==> Occurs(words[i], text)
  {
    if words == [] then true
    else Includes(text, words[0]) && AllIncluded(text, words[1..])
  }

  function AnyIncluded(text: string, words: seq<string>): (r: bool)
    ensures r <==> exists i :: 0 <= i < |words| && Occurs(words[i], text)
  {
    if words == [] then false
    else Includes(text, words[0]) || AnyIncluded(text, words[1..])
  }

  predicate Holds(p: Pattern, text: string) {
    match p
    case AllOf(ws) => AllIncluded(text, ws)
    case AnyOf(ws) => AnyIncluded(text, ws)
  }

  lemma HoldsOne(text: string, a: string)
    ensures Holds(AnyOf([a]), text) <==> Includes(text, a)
  {
    assert [a][1..] == [];
    assert AnyIncluded(text, [a]) == (Includes(text, a) || AnyIncluded(text, []));
  }

  lemma HoldsTwo(text: string, a: string, b: string)
    ensures Holds(AllOf([a, b]), text) <==> Includes(text, a) && Includes(text, b)
    ensures Holds(AnyOf([a, b]), text) <==> Includes(text, a) || Includes(text, b)
  {
    assert [a, b][1..] == [b];
    assert [b][1..] == [];
    assert AnyIncluded(text, [a, b]) == (Includes(text, a) || AnyIncluded(text, [b]));
    assert AnyIncluded(text, [b]) == (Includes(text, b) || AnyIncluded(text, []));
  }

  /** The position of the first rule whose pattern holds, or `|rules|` when
      none does. */
  function FirstMatch<R>(rules: seq<Rule<R>>, text: string): (k: nat)
    ensures k <= |rules|
    ensures k < |rules| ==> Holds(rules[k].pattern, text)
    ensures forall i :: 0 <= i < k ==> !Holds(rules[i].pattern, text)
  {
    if rules == [] then 0
    else if Holds(rules[0].pattern, text) then 0
    else 1 + FirstMatch(rules[1..], text)
  }

  /** The reply of the first matching rule, or `fallback`. */
  function Respond<R>(rules: seq<Rule<R>>, text: string, fallback: R): R {
    var k := FirstMatch(rules, text);
    if k < |rules| then rules[k].reply else fallback
  }

  /** The replies of the table and the fallback are all different. */
  ghost predicate DistinctReplies<R>(rules: seq<Rule<R>>, fallback: R) {
    (forall i, j :: 0 <= i < j < |rules| ==> rules[i].reply != rules[j].reply) &&
    (forall i :: 0 <= i < |rules| ==> rules[i].reply != fallback)
  }

  /** With distinct replies, the answer identifies the rule that fired: rule
      `j`'s reply is given iff rule `j` matches and no earlier rule does, and
      the fallback iff no rule matches. */
  lemma RespondCharacterized<R>(rules: seq<Rule<R>>, text: string, fallback: R, j: nat)
    requires DistinctReplies(rules, fallback)
    requires j < |rules|
    ensures Respond(rules, text, fallback) == rules[j].reply <==>
            Holds(rules[j].pattern, text) && forall i :: 0 <= i < j ==> !Holds(rules[i].pattern, text)
    ensures Respond(rules, text, fallback) == fallback <==>
            forall i :: 0 <= i < |rules| ==> !Holds(rules[i].pattern, text)
  {
  }
}
