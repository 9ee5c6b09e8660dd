/**
 * The placeholder tokens the schema synthesizer emits. They are interpreted
 * later by the serving engine, not by the converter.
 */
module Placeholders {

  const NumberToken: string := "{{faker 'random.number'}}"
  const FloatToken: string := "{{faker 'random.float'}}"
  const BooleanToken: string := "{{faker 'random.boolean'}}"
  const DateToken: string := "{{date '2019' (now) 'yyyy-MM-dd'}}"
  const RecentDateToken: string := "{{faker 'date.recent' 365}}"
  const EmailToken: string := "{{faker 'internet.email'}}"
  const UuidToken: string := "{{faker 'random.uuid'}}"

  /** The tokens whose JSON quotes the post-pass removes, in the order its pattern tries them. */
  const UnquotedTokens: seq<string> := [NumberToken, BooleanToken, FloatToken]

  predicate IsUnquotedToken(s: string) {
    s in UnquotedTokens
  }
}
