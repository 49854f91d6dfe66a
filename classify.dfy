/**
 * Keyword classification as an ordered decision table: a list of rules, each
 * naming a category, evaluated in order; the first rule that matches decides.
 * backend/services/github.py and web/dashboard.js each write such a table out
 * as an `if`/`elif` chain; both chains are shown equal to a table here.
 */
module Classify {
  import opened Strings

  /**
   * What a rule may look at: the topic list, the lower-cased description, the
   * lower-cased repository name and the language ("" when there is none).
   */
  datatype Features = Features(topics: seq<string>, text: string, name: string, language: string)

  datatype Rule =
    | KeywordRule(topicWords: seq<string>, textWords: seq<string>, nameWords: seq<string>, category: string)
    | LanguageRule(languages: seq<string>, category: string)

  /** `any(kw in topics for kw in words)`: exact membership in the topic list. */
  predicate AnyListed(words: seq<string>, topics: seq<string>)
  {
    exists w :: w in words && w in topics
  }

  /** `any(kw in text for kw in words)`: substring of the text. */
  predicate AnyContained(words: seq<string>, text: string)
  {
    exists w :: w in words && Contains(text, w)
  }

  predicate Matches(rule: Rule, f: Features)
  {
    match rule
    case KeywordRule(topicWords, textWords, nameWords, _) =>
      AnyListed(topicWords, f.topics) || AnyContained(textWords, f.text) || AnyContained(nameWords, f.name)
    case LanguageRule(languages, _) => f.language in languages
  }

  /** The label of the first rule at or after `i` that matches, else `fallback`. */
  function FirstMatchFrom(rules: seq<Rule>, i: nat, f: Features, fallback: string): string
    requires i <= |rules|
    decreases |rules| - i
  {
    if i == |rules| then fallback
    else if Matches(rules[i], f) then rules[i].category
    else FirstMatchFrom(rules, i + 1, f, fallback)
  }

  function FirstMatch(rules: seq<Rule>, f: Features, fallback: string): string
  {
    FirstMatchFrom(rules, 0, f, fallback)
  }

  lemma {:induction false} FirstMatchFromIsFirst(rules: seq<Rule>, i: nat, f: Features, fallback: string, k: nat)
    requires i <= k < |rules| && Matches(rules[k], f)
    requires forall j :: i <= j < k ==> !Matches(rules[j], f)
    ensures FirstMatchFrom(rules, i, f, fallback) == rules[k].category
    decreases k - i
  {
    if i < k {
      FirstMatchFromIsFirst(rules, i + 1, f, fallback, k);
    }
  }

  /** First match wins: the earliest matching rule decides, whatever later rules say. */
  lemma FirstMatchIsFirst(rules: seq<Rule>, f: Features, fallback: string, k: nat)
    requires k < |rules| && Matches(rules[k], f)
    requires forall j :: 0 <= j < k ==> !Matches(rules[j], f)
    ensures FirstMatch(rules, f, fallback) == rules[k].category
  {
    FirstMatchFromIsFirst(rules, 0, f, fallback, k);
  }

  lemma {:induction false} FirstMatchFromFallback(rules: seq<Rule>, i: nat, f: Features, fallback: string)
    requires i <= |rules|
    requires forall j :: i <= j < |rules| ==> !Matches(rules[j], f)
    ensures FirstMatchFrom(rules, i, f, fallback) == fallback
    decreases |rules| - i
  {
    if i < |rules| {
      FirstMatchFromFallback(rules, i + 1, f, fallback);
    }
  }

  /** When no rule matches, the fallback label is the answer. */
  lemma FirstMatchFallback(rules: seq<Rule>, f: Features, fallback: string)
    requires forall j :: 0 <= j < |rules| ==> !Matches(rules[j], f)
    ensures FirstMatch(rules, f, fallback) == fallback
  {
    FirstMatchFromFallback(rules, 0, f, fallback);
  }
}
