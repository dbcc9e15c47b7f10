/** Small helper types shared by the whole project. */
module Prelude {
  datatype Option<+T> = None | Some(value: T)

  datatype Result<+T> = Ok(value: T) | Err(error: string)

  datatype List<T> = Nil | Cons(head: T, tail: List<T>)
}

/** The token vocabulary the table qualifier looks at (crates/sqe-bench/src/query.rs). */
module SqlTokens {
  import opened Prelude

  /** `Plain` stands for "no keyword" and for every keyword the qualifier never mentions. */
  datatype Keyword =
    | Plain
    | FROM | JOIN | INTO | UPDATE | TABLE | USING
    | IF | EXISTS | NOT | ONLY | LATERAL
    | WHERE | GROUP | HAVING | ORDER | LIMIT | OFFSET | FETCH | UNION | EXCEPT | INTERSECT
    | WINDOW | QUALIFY | SET | RETURNING | SELECT | VALUES | WITH
    | IN | AS | ON | AND | BETWEEN | OR | THEN | ELSE | WHEN | BY | ALL | ANY | SOME | CASE | DISTINCT

  datatype Token =
    | LParen
    | RParen
    | Comma
    | SemiColon
    | Period
    | Whitespace
    | Word(value: string, quoted: bool, kw: Keyword)
    | Other(text: string)

  /** Keywords after which the next identifier is a table reference. */
  predicate IsIntroducer(kw: Keyword) {
    kw.FROM? || kw.JOIN? || kw.INTO? || kw.UPDATE? || kw.TABLE? || kw.USING?
  }

  /** Words that may stand between an introducer and its table. */
  predicate IsFiller(kw: Keyword) {
    kw.IF? || kw.EXISTS? || kw.NOT? || kw.ONLY? || kw.LATERAL?
  }

  /** Keywords that end a FROM list. */
  predicate IsBoundary(kw: Keyword) {
    || kw.WHERE? || kw.GROUP? || kw.HAVING? || kw.ORDER? || kw.LIMIT? || kw.OFFSET? || kw.FETCH?
    || kw.UNION? || kw.EXCEPT? || kw.INTERSECT? || kw.WINDOW? || kw.QUALIFY? || kw.SET?
    || kw.RETURNING? || kw.SELECT? || kw.VALUES? || kw.WITH?
  }

  /** Keywords after which `(` opens a subquery or a grouping, not an argument list. */
  predicate IsParenOpener(kw: Keyword) {
    || kw.IN? || kw.EXISTS? || kw.AS? || kw.FROM? || kw.JOIN? || kw.ON? || kw.AND? || kw.BETWEEN?
    || kw.OR? || kw.NOT? || kw.SELECT? || kw.WHERE? || kw.USING? || kw.VALUES? || kw.THEN? || kw.ELSE?
    || kw.WHEN? || kw.BY? || kw.UNION? || kw.ALL? || kw.ANY? || kw.SOME? || kw.LATERAL? || kw.HAVING?
    || kw.RETURNING? || kw.WITH? || kw.INTERSECT? || kw.EXCEPT? || kw.CASE? || kw.DISTINCT?
  }

  /** A `(` after a word opens an argument list, unless the word is an opener keyword. */
  predicate OpensCall(prev: Option<Token>) {
    prev.Some? && prev.value.Word? && (prev.value.quoted || !IsParenOpener(prev.value.kw))
  }

  predicate IsPeriod(t: Option<Token>) {
    t.Some? && t.value.Period?
  }

  predicate IsKeyword(t: Token, kw: Keyword) {
    t.Word? && !t.quoted && t.kw == kw
  }

  function Head<T>(l: List<T>): Option<T> {
    if l.Nil? then None else Some(l.head)
  }
}
