/** The ATTACH statement of the bench harness and what its redaction shows. */
module AttachStatement {
  import opened Prelude
  import opened TextSearch
  import opened AttachSql
  import opened AttachRedaction

  datatype Profile = Profile(url: string, warehouse: string, endpoint: string, region: string, pathStyle: bool)

  datatype Secrets = Secrets(accessKey: string, secretKey: string, token: string)

  const SECRET_KEY: string := "S3_SECRET_KEY "
  const ACCESS_KEY: string := "S3_ACCESS_KEY "
  const TOKEN: string := "TOKEN "

  function Bool(b: bool): string { if b then "true" else "false" }

  /** `intro 'value'` and what follows. */
  function Quoted(intro: string, value: string, rest: string): string {
    intro + QUOTE + (value + QUOTE + rest)
  }

  /** `build_attach_sql`: every value escaped, the catalog name as it is. */
  function BuildAttachSql(catalog: string, p: Profile, s: Secrets): string {
    Quoted("ATTACH ", Escape(p.url),
    Quoted(" AS " + catalog + " (TYPE iceberg_rest, WAREHOUSE ", Escape(p.warehouse),
    Quoted(", TOKEN ", Escape(s.token),
    Quoted(", S3_ENDPOINT ", Escape(p.endpoint),
    Quoted(", S3_REGION ", Escape(p.region),
    Quoted(", S3_ACCESS_KEY ", Escape(s.accessKey),
    Quoted(", S3_SECRET_KEY ", Escape(s.secretKey),
    Quoted(", S3_PATH_STYLE ", Bool(p.pathStyle), ")"))))))))
  }

  /** `redact_attach_sql`. */
  method RedactAttachSql(sql: string) returns (out: string)
    ensures out == RedactThree(sql, SECRET_KEY, ACCESS_KEY, TOKEN)
  {
    out := RedactOption(sql, "S3_SECRET_KEY");
    out := RedactOption(out, "S3_ACCESS_KEY");
    out := RedactOption(out, "TOKEN");
    assert "S3_SECRET_KEY" + " " == SECRET_KEY && "S3_ACCESS_KEY" + " " == ACCESS_KEY && "TOKEN" + " " == TOKEN;
  }

  const HIDDEN := Secrets(STARS, STARS, STARS)

  // ---- the statement as fields ---------------------------------------------------------------

  function Url(v: string): Field { Field("ATTACH ", v) }
  function Warehouse(catalog: string,
                     v: string): Field { Field(" AS " + catalog + " (TYPE iceberg_rest, WAREHOUSE ", v) }
  function Token(v: string): Field { Field(", TOKEN ", v) }
  function Endpoint(v: string): Field { Field(", S3_ENDPOINT ", v) }
  function Region(v: string): Field { Field(", S3_REGION ", v) }
  function AccessKey(v: string): Field { Field(", S3_ACCESS_KEY ", v) }
  function SecretKey(v: string): Field { Field(", S3_SECRET_KEY ", v) }
  function PathStyle(v: string): Field { Field(", S3_PATH_STYLE ", v) }

  /** The options behind the warehouse. */
  function Options(p: Profile, token: string, ak: string, sk: string): List<Field> {
    Cons(Token(token), Cons(Endpoint(Escape(p.endpoint)), Cons(Region(Escape(p.region)), Cons(AccessKey(ak),
      Cons(SecretKey(sk), Cons(PathStyle(Bool(p.pathStyle)), Nil))))))
  }

  function Fields(catalog: string, p: Profile, token: string, ak: string, sk: string): List<Field> {
    Cons(Url(Escape(p.url)), Cons(Warehouse(catalog, Escape(p.warehouse)), Options(p, token, ak, sk)))
  }

  /** The statement up to the closing quote of the warehouse. */
  function Front(catalog: string, p: Profile): string {
    "ATTACH " + QUOTE + Escape(p.url) + QUOTE + " AS " + catalog + " (TYPE iceberg_rest, WAREHOUSE " + QUOTE
        + Escape(p.warehouse)
  }

  lemma {:induction false} RenderQuoted(f: Field, rest: List<Field>, tail: string)
    ensures Render(Cons(f, rest), tail) == Quoted(f.intro, f.value, Render(rest, tail))
  {
  }

  lemma {:induction false} BuildIsRender(catalog: string, p: Profile, s: Secrets)
    ensures BuildAttachSql(catalog, p, s)
            == Render(Fields(catalog, p, Escape(s.token), Escape(s.accessKey), Escape(s.secretKey)), ")")
  {
    hide Escape, Quoted;
    var f8 := Cons(PathStyle(Bool(p.pathStyle)), Nil);
    var f7 := Cons(SecretKey(Escape(s.secretKey)), f8);
    var f6 := Cons(AccessKey(Escape(s.accessKey)), f7);
    var f5 := Cons(Region(Escape(p.region)), f6);
    var f4 := Cons(Endpoint(Escape(p.endpoint)), f5);
    var f3 := Cons(Token(Escape(s.token)), f4);
    var f2 := Cons(Warehouse(catalog, Escape(p.warehouse)), f3);
    RenderQuoted(PathStyle(Bool(p.pathStyle)), Nil, ")");
    RenderQuoted(SecretKey(Escape(s.secretKey)), f8, ")");
    RenderQuoted(AccessKey(Escape(s.accessKey)), f7, ")");
    RenderQuoted(Region(Escape(p.region)), f6, ")");
    RenderQuoted(Endpoint(Escape(p.endpoint)), f5, ")");
    RenderQuoted(Token(Escape(s.token)), f4, ")");
    RenderQuoted(Warehouse(catalog, Escape(p.warehouse)), f3, ")");
    RenderQuoted(Url(Escape(p.url)), f2, ")");
  }

  // ---- reading the statement back ------------------------------------------------------------

  /** The values behind these introductions, un-doubled, if the statement consists of them and ends in `)`. */
  function ReadValues(sql: string, intros: seq<string>): Option<seq<string>>
    decreases |intros|
  {
    if intros == [] then if sql == ")" then Some([]) else None
    else if !(intros[0] + QUOTE <= sql) then None
    else
      var behind := sql[|intros[0]| + 1..];
      var end := ValueEnd(behind);
      if end == |behind| then None
      else
        var rest := ReadValues(behind[end + 1..], intros[1..]);
        if rest.None? then None else Some([Unescape(behind[..end])] + rest.value)
  }

  lemma {:induction false} ReadsOne(intro: string, v: string, rest: string, intros: seq<string>)
    requires rest != [] && rest[0] != '\''
    ensures ReadValues(Quoted(intro, Escape(v), rest), [intro] + intros)
            == (var r := ReadValues(rest, intros); if r.None? then None else Some([v] + r.value))
  {
    var sql, behind := Quoted(intro, Escape(v), rest), Escape(v) + QUOTE + rest;
    EscapeRoundTrip(v, rest);
    hide ValueEnd, Escape, Unescape;
    assert ([intro] + intros)[1..] == intros;
    assert sql[..|intro| + 1] == intro + QUOTE && sql[|intro| + 1..] == behind;
    assert behind[|Escape(v)| + 1..] == rest;
  }

  lemma {:induction false} BoolIsPlain(b: bool)
    ensures Escape(Bool(b)) == Bool(b)
  {
    var x := Bool(b);
    EscapeOf(x, 0);
    assert x[0..] == x;
  }

  lemma {:induction false} EscapeOf(x: string, i: nat)
    requires i <= |x| && forall k :: i <= k < |x| ==> x[k] != '\''
    ensures Escape(x[i..]) == x[i..]
    decreases |x| - i
  {
    if i < |x| {
      EscapeOf(x, i + 1);
      assert x[i..][1..] == x[i + 1..] && x[i..] == [x[i]] + x[i + 1..];
    }
  }

  /** The statement holds, behind the name of each option, the value of that field of the profile. */
  lemma {:induction false} StatementReadsBack(catalog: string, p: Profile, s: Secrets)
    ensures ReadValues(BuildAttachSql(catalog, p, s),
              ["ATTACH ", " AS " + catalog + " (TYPE iceberg_rest, WAREHOUSE ", ", TOKEN ", ", S3_ENDPOINT ",
               ", S3_REGION ", ", S3_ACCESS_KEY ", ", S3_SECRET_KEY ", ", S3_PATH_STYLE "])
            == Some([p.url, p.warehouse, s.token, p.endpoint, p.region, s.accessKey, s.secretKey, Bool(p.pathStyle)])
  {
    BoolIsPlain(p.pathStyle);
    ReadsEnd();
    hide Escape, ReadValues, Bool;
    var v8, v7, v6 := [Bool(p.pathStyle)], [s.secretKey], [s.accessKey];
    var q8, i8 := Quoted(", S3_PATH_STYLE ", Escape(Bool(p.pathStyle)), ")"), [", S3_PATH_STYLE "];
    Reads(", S3_PATH_STYLE ", Bool(p.pathStyle), ")", [], []);
    assert [", S3_PATH_STYLE "] + [] == i8 && [Bool(p.pathStyle)] + [] == v8;
    var q7, i7 := Quoted(", S3_SECRET_KEY ", Escape(s.secretKey), q8), [", S3_SECRET_KEY "] + i8;
    Reads(", S3_SECRET_KEY ", s.secretKey, q8, i8, v8);
    var q6, i6 := Quoted(", S3_ACCESS_KEY ", Escape(s.accessKey), q7), [", S3_ACCESS_KEY "] + i7;
    Reads(", S3_ACCESS_KEY ", s.accessKey, q7, i7, v7 + v8);
    var q5, i5 := Quoted(", S3_REGION ", Escape(p.region), q6), [", S3_REGION "] + i6;
    Reads(", S3_REGION ", p.region, q6, i6, v6 + (v7 + v8));
    var q4, i4 := Quoted(", S3_ENDPOINT ", Escape(p.endpoint), q5), [", S3_ENDPOINT "] + i5;
    Reads(", S3_ENDPOINT ", p.endpoint, q5, i5, [p.region] + (v6 + (v7 + v8)));
    var q3, i3 := Quoted(", TOKEN ", Escape(s.token), q4), [", TOKEN "] + i4;
    Reads(", TOKEN ", s.token, q4, i4, [p.endpoint] + ([p.region] + (v6 + (v7 + v8))));
    var into := " AS " + catalog + " (TYPE iceberg_rest, WAREHOUSE ";
    var q2, i2 := Quoted(into, Escape(p.warehouse), q3), [into] + i3;
    Reads(into, p.warehouse, q3, i3, [s.token] + ([p.endpoint] + ([p.region] + (v6 + (v7 + v8)))));
    Reads("ATTACH ", p.url, q2, i2, [p.warehouse] + ([s.token] + ([p.endpoint] + ([p.region] + (v6 + (v7 + v8))))));
    assert ["ATTACH "] + i2 == ["ATTACH ", into, ", TOKEN ", ", S3_ENDPOINT ", ", S3_REGION ", ", S3_ACCESS_KEY ",
                               ", S3_SECRET_KEY ", ", S3_PATH_STYLE "];
    assert [p.url] + ([p.warehouse] + ([s.token] + ([p.endpoint] + ([p.region] + (v6 + (v7 + v8))))))
        == [p.url, p.warehouse, s.token, p.endpoint, p.region, s.accessKey, s.secretKey, Bool(p.pathStyle)];
  }

  /** One more value in front, with a text that begins like an introduction or the end behind it. */
  lemma {:induction false} Reads(intro: string, v: string, rest: string, intros: seq<string>, values: seq<string>)
    requires rest != [] && rest[0] != '\'' && intro != [] && intro[0] != '\''
    requires ReadValues(rest, intros) == Some(values)
    ensures var sql := Quoted(intro, Escape(v), rest);
            ReadValues(sql, [intro] + intros) == Some([v] + values) && sql != [] && sql[0] != '\''
  {
    hide ReadValues, Escape;
    ReadsOne(intro, v, rest, intros);
  }

  lemma {:induction false} ReadsEnd()
    ensures ReadValues(")", []) == Some([])
  {
  }

  lemma {:induction false} LongSuffix(x: string, y: string, b: string)
    requires |b| <= |y|
    ensures EndsWith(x + y, b) <==> EndsWith(y, b)
  {
    assert (x + y)[|x + y| - |b|..] == y[|y| - |b|..];
  }

  lemma CatalogIsNoOption(catalog: string, v: string)
    ensures !Named(Warehouse(catalog, v), SECRET_KEY)
    ensures !Named(Warehouse(catalog, v), ACCESS_KEY)
    ensures !Named(Warehouse(catalog, v), TOKEN)
  {
    var lit := " (TYPE iceberg_rest, WAREHOUSE ";
    LongSuffix(" AS " + catalog, lit, SECRET_KEY);
    LongSuffix(" AS " + catalog, lit, ACCESS_KEY);
    LongSuffix(" AS " + catalog, lit, TOKEN);
    assert lit[|lit| - 2] == 'E' && SECRET_KEY[|SECRET_KEY| - 2] == 'Y' && ACCESS_KEY[|ACCESS_KEY| - 2] == 'Y'
        && TOKEN[|TOKEN| - 2] == 'N';
  }

  lemma {:induction false} NamesAreOk()
    ensures NameOk(SECRET_KEY) && NameOk(ACCESS_KEY) && NameOk(TOKEN)
  {
  }

  /** The three secret options are found behind their own introductions only. */
  lemma {:induction false} OptionNames(v: string)
    ensures Named(Token(v), TOKEN) && Named(AccessKey(v), ACCESS_KEY) && Named(SecretKey(v), SECRET_KEY)
    ensures !Named(Token(v), ACCESS_KEY) && !Named(Token(v), SECRET_KEY)
    ensures !Named(AccessKey(v), TOKEN) && !Named(AccessKey(v), SECRET_KEY)
    ensures !Named(SecretKey(v), TOKEN) && !Named(SecretKey(v), ACCESS_KEY)
  {
  }

  /** The other options are not taken for them. */
  lemma {:induction false} OtherNames(v: string)
    ensures forall b | b in {SECRET_KEY, ACCESS_KEY, TOKEN} ::
              !Named(Url(v), b) && !Named(Endpoint(v), b) && !Named(Region(v), b) && !Named(PathStyle(v), b)
  {
  }

  /** Which fields a pass turns into stars. */
  lemma {:induction false} PassesOver(catalog: string, p: Profile, t: string, ak: string, sk: string)
    ensures Starred(Fields(catalog, p, t, ak, sk), SECRET_KEY) == Fields(catalog, p, t, ak, STARS)
    ensures Starred(Fields(catalog, p, t, ak, sk), ACCESS_KEY) == Fields(catalog, p, t, STARS, sk)
    ensures Starred(Fields(catalog, p, t, ak, sk), TOKEN) == Fields(catalog, p, STARS, ak, sk)
    ensures Starred(Options(p, t, ak, sk), SECRET_KEY) == Options(p, t, ak, STARS)
    ensures Starred(Options(p, t, ak, sk), ACCESS_KEY) == Options(p, t, STARS, sk)
    ensures Starred(Options(p, t, ak, sk), TOKEN) == Options(p, STARS, ak, sk)
  {
    hide Escape, Named, EndsWith, Options, Starred;
    NamesDiffer();
    OptionsPass(catalog, p, t, ak, sk, SECRET_KEY);
    OptionsPass(catalog, p, t, ak, sk, ACCESS_KEY);
    OptionsPass(catalog, p, t, ak, sk, TOKEN);
    NamesOfFields(catalog, p, t, ak, sk);
    Pass(catalog, p, t, ak, sk, SECRET_KEY);
    Pass(catalog, p, t, ak, sk, ACCESS_KEY);
    Pass(catalog, p, t, ak, sk, TOKEN);
  }

  lemma NamesOfFields(catalog: string, p: Profile, t: string, ak: string, sk: string)
    ensures forall b | b in {SECRET_KEY, ACCESS_KEY, TOKEN} ::
              && !Named(Url(Escape(p.url)), b) && !Named(Warehouse(catalog, Escape(p.warehouse)), b)
              && !Named(Endpoint(Escape(p.endpoint)), b) && !Named(Region(Escape(p.region)), b)
              && !Named(PathStyle(Bool(p.pathStyle)), b)
              && Named(Token(t), b) == (b == TOKEN) && Named(AccessKey(ak), b) == (b == ACCESS_KEY)
              && Named(SecretKey(sk), b) == (b == SECRET_KEY)
  {
    hide Named;
    CatalogIsNoOption(catalog, Escape(p.warehouse));
    OtherNames(Escape(p.url));
    OtherNames(Escape(p.endpoint));
    OtherNames(Escape(p.region));
    OtherNames(Bool(p.pathStyle));
    OptionNames(t);
    OptionNames(ak);
    OptionNames(sk);
    NamesDiffer();
  }

  lemma NamesDiffer()
    ensures SECRET_KEY != ACCESS_KEY && SECRET_KEY != TOKEN && ACCESS_KEY != TOKEN
  {
    assert SECRET_KEY[3] != ACCESS_KEY[3] && SECRET_KEY[0] != TOKEN[0] && ACCESS_KEY[0] != TOKEN[0];
  }

  /** One pass over the options, field by field. */
  lemma {:induction false} OptionsPass(catalog: string, p: Profile, t: string, ak: string, sk: string, b: string)
    requires b in {SECRET_KEY, ACCESS_KEY, TOKEN}
    ensures Starred(Options(p, t, ak, sk), b)
            == Options(p, if b == TOKEN then STARS else t, if b == ACCESS_KEY then STARS else ak,
                       if b == SECRET_KEY then STARS else sk)
    ensures NothingHidden(Options(p, t, ak, sk), b) <==>
            && !Hides(Escape(p.endpoint), b) && !Hides(Escape(p.region), b) && !Hides(Bool(p.pathStyle), b)
            && (b == TOKEN || !Hides(t, b)) && (b == ACCESS_KEY || !Hides(ak, b)) && (b == SECRET_KEY || !Hides(sk, b))
  {
    hide Escape, Named, EndsWith, Hides;
    NamesOfFields(catalog, p, t, ak, sk);
    var f8 := Cons(PathStyle(Bool(p.pathStyle)), Nil);
    var f7 := Cons(SecretKey(sk), f8);
    var f6 := Cons(AccessKey(ak), f7);
    var f5 := Cons(Region(Escape(p.region)), f6);
    var f4 := Cons(Endpoint(Escape(p.endpoint)), f5);
    assert Starred(f8, b) == f8 && (NothingHidden(f8, b) <==> !Hides(Bool(p.pathStyle), b));
    assert Starred(f7, b) == Cons(SecretKey(if b == SECRET_KEY then STARS else sk), f8);
    assert Starred(f5, b) == Cons(Region(Escape(p.region)), Starred(f6, b));
    assert NothingHidden(f7, b) <==> (b == SECRET_KEY || !Hides(sk, b)) && !Hides(Bool(p.pathStyle), b);
    assert NothingHidden(f5, b) <==> !Hides(Escape(p.region), b) && NothingHidden(f6, b);
    assert NothingHidden(f4, b) <==> !Hides(Escape(p.endpoint), b) && NothingHidden(f5, b);
  }

  /** One pass over the whole statement. */
  lemma {:induction false} Pass(catalog: string, p: Profile, t: string, ak: string, sk: string, b: string)
    requires b in {SECRET_KEY, ACCESS_KEY, TOKEN}
    ensures Starred(Fields(catalog, p, t, ak, sk), b)
            == Fields(catalog, p, if b == TOKEN then STARS else t, if b == ACCESS_KEY then STARS else ak,
                      if b == SECRET_KEY then STARS else sk)
    ensures NothingHidden(Fields(catalog, p, t, ak, sk), b) <==>
            !Hides(Escape(p.url), b) && !Hides(Escape(p.warehouse), b) && NothingHidden(Options(p, t, ak, sk), b)
    ensures NothingHidden(Options(p, t, ak, sk), b) <==>
            && !Hides(Escape(p.endpoint), b) && !Hides(Escape(p.region), b) && !Hides(Bool(p.pathStyle), b)
            && (b == TOKEN || !Hides(t, b)) && (b == ACCESS_KEY || !Hides(ak, b)) && (b == SECRET_KEY || !Hides(sk, b))
  {
    hide Escape, Named, EndsWith, Hides, Options;
    NamesOfFields(catalog, p, t, ak, sk);
    OptionsPass(catalog, p, t, ak, sk, b);
    var f2 := Cons(Warehouse(catalog, Escape(p.warehouse)), Options(p, t, ak, sk));
    assert Starred(f2, b) == Cons(Warehouse(catalog, Escape(p.warehouse)), Starred(Options(p, t, ak, sk), b));
    assert NothingHidden(f2, b) <==> !Hides(Escape(p.warehouse), b) && NothingHidden(Options(p, t, ak, sk), b);
  }

  // ---- what the log shows --------------------------------------------------------------------

  lemma {:induction false} StarsMentionNothing(b: string)
    requires b in {SECRET_KEY, ACCESS_KEY, TOKEN}
    ensures Escape(STARS) == STARS && !Hides(STARS, b) && !Hides(Bool(true), b) && !Hides(Bool(false), b)
  {
    EscapeStars();
    TooShortToHide(STARS, b);
    TooShortToHide("true", b);
    TooShortToHide("false", b);
  }

  lemma EscapeStars()
    ensures Escape(STARS) == STARS
  {
    assert Escape("***") == "*" + Escape("**") == "*" + ("*" + Escape("*"));
  }

  lemma {:induction false} TooShortToHide(v: string, b: string)
    requires |v| < |b|
    ensures !Hides(v, b)
  {
  }

  /** No option that a pass still sees may mention the option that pass looks for: the public values none of
      them, the token neither key option, the access key not the secret key. */
  ghost predicate DiscreetOptions(p: Profile, s: Secrets) {
    && (forall b | b in {SECRET_KEY, ACCESS_KEY, TOKEN} :: !Mentions(p.endpoint, b) && !Mentions(p.region, b))
    && !Mentions(s.token, SECRET_KEY) && !Mentions(s.token, ACCESS_KEY)
    && !Mentions(s.accessKey, SECRET_KEY)
  }

  /** The same of all values, the URL and the warehouse included. */
  ghost predicate Discreet(p: Profile, s: Secrets) {
    && (forall b | b in {SECRET_KEY, ACCESS_KEY, TOKEN} :: !Mentions(p.url, b) && !Mentions(p.warehouse, b))
    && DiscreetOptions(p, s)
  }

  lemma {:induction false} HiddenInStatement(catalog: string, p: Profile, s: Secrets)
    ensures var t, ak, sk := Escape(s.token), Escape(s.accessKey), Escape(s.secretKey);
            && (NothingHiddenThree(Fields(catalog, p, t, ak, sk), SECRET_KEY, ACCESS_KEY, TOKEN) <==> Discreet(p, s))
            && (NothingHiddenThree(Options(p, t, ak, sk), SECRET_KEY, ACCESS_KEY, TOKEN) <==> DiscreetOptions(p, s))
  {
    hide Escape, Mentions, Hides, NothingHidden, Fields, Options, Starred;
    var t, ak, sk := Escape(s.token), Escape(s.accessKey), Escape(s.secretKey);
    NamesDiffer();
    PassesOver(catalog, p, t, ak, sk);
    PassesOver(catalog, p, t, ak, STARS);
    Pass(catalog, p, t, ak, sk, SECRET_KEY);
    Pass(catalog, p, t, ak, STARS, ACCESS_KEY);
    Pass(catalog, p, t, STARS, STARS, TOKEN);
    HidingValues(p);
    NamesAreOk();
    HidesIfMentions(s.token, SECRET_KEY);
    HidesIfMentions(s.token, ACCESS_KEY);
    HidesIfMentions(s.accessKey, SECRET_KEY);
  }

  lemma {:induction false} HidingValues(p: Profile)
    ensures forall b | b in {SECRET_KEY, ACCESS_KEY, TOKEN} ::
              && !Hides(STARS, b) && !Hides(Bool(p.pathStyle), b)
              && (Hides(Escape(p.url), b) <==> Mentions(p.url, b))
              && (Hides(Escape(p.warehouse), b) <==> Mentions(p.warehouse, b))
              && (Hides(Escape(p.endpoint), b) <==> Mentions(p.endpoint, b))
              && (Hides(Escape(p.region), b) <==> Mentions(p.region, b))
  {
    NamesAreOk();
    hide Escape, Mentions, Hides;
    forall b | b in {SECRET_KEY, ACCESS_KEY, TOKEN}
      ensures !Hides(STARS, b) && !Hides(Bool(p.pathStyle), b)
      ensures Hides(Escape(p.url), b) <==> Mentions(p.url, b)
      ensures Hides(Escape(p.warehouse), b) <==> Mentions(p.warehouse, b)
      ensures Hides(Escape(p.endpoint), b) <==> Mentions(p.endpoint, b)
      ensures Hides(Escape(p.region), b) <==> Mentions(p.region, b)
    {
      StarsMentionNothing(b);
      HidesIfMentions(p.url, b);
      HidesIfMentions(p.warehouse, b);
      HidesIfMentions(p.endpoint, b);
      HidesIfMentions(p.region, b);
    }
  }

  lemma {:induction false} OptionsAreWf(p: Profile, t: string, ak: string, sk: string)
    requires Paired(t) && Paired(ak) && Paired(sk)
    ensures Wf(Options(p, t, ak, sk)) && Plain(")")
  {
    hide Escape, Paired, Plain;
    IntrosArePlain();
    EscapeIsPaired(p.endpoint);
    EscapeIsPaired(p.region);
    BoolIsPaired(p.pathStyle);
    var f8 := Cons(PathStyle(Bool(p.pathStyle)), Nil);
    var f7 := Cons(SecretKey(sk), f8);
    var f6 := Cons(AccessKey(ak), f7);
    var f5 := Cons(Region(Escape(p.region)), f6);
    var f4 := Cons(Endpoint(Escape(p.endpoint)), f5);
    assert Wf(f8);
    assert Wf(f6);
    assert Wf(f4);
  }

  lemma {:induction false} FieldsAreWf(catalog: string, p: Profile, t: string, ak: string, sk: string)
    requires NoQuote(catalog) && Paired(t) && Paired(ak) && Paired(sk)
    ensures Wf(Fields(catalog, p, t, ak, sk)) && Plain(")")
  {
    hide Escape, Paired, Plain, Options;
    IntrosArePlain();
    CatalogIsPlain(catalog);
    EscapeIsPaired(p.url);
    EscapeIsPaired(p.warehouse);
    OptionsAreWf(p, t, ak, sk);
    assert Wf(Cons(Warehouse(catalog, Escape(p.warehouse)), Options(p, t, ak, sk)));
  }

  lemma IntrosArePlain()
    ensures Plain("ATTACH ") && Plain(", TOKEN ") && Plain(", S3_ENDPOINT ") && Plain(", S3_REGION ")
    ensures Plain(", S3_ACCESS_KEY ") && Plain(", S3_SECRET_KEY ") && Plain(", S3_PATH_STYLE ") && Plain(")")
  {
  }

  lemma CatalogIsPlain(catalog: string)
    requires NoQuote(catalog)
    ensures Plain(" AS " + catalog + " (TYPE iceberg_rest, WAREHOUSE ")
  {
  }

  lemma BoolIsPaired(b: bool)
    ensures Paired(Bool(b))
  {
    assert Paired("true") && Paired("false");
  }

  /** The logged statement is the statement with stars for the three secrets, everything else
      verbatim -- if and only if the inputs are discreet. */
  lemma {:induction false} RedactionIsExact(catalog: string, p: Profile, s: Secrets)
    requires NoQuote(catalog)
    ensures RedactThree(BuildAttachSql(catalog, p, s), SECRET_KEY, ACCESS_KEY, TOKEN)
            == BuildAttachSql(catalog, p, HIDDEN)
            <==> Discreet(p, s)
  {
    hide Escape, Paired, RedactThree, Discreet, NothingHiddenThree, Wf, Plain, NoQuote, NameOk, BuildAttachSql,
        Starred, Fields, Render;
    var t, ak, sk := Escape(s.token), Escape(s.accessKey), Escape(s.secretKey);
    EscapeIsPaired(s.token);
    EscapeIsPaired(s.accessKey);
    EscapeIsPaired(s.secretKey);
    FieldsAreWf(catalog, p, t, ak, sk);
    BuildIsRender(catalog, p, s);
    BuildIsRender(catalog, p, HIDDEN);
    EscapeStars();
    NamesAreOk();
    RedactThreeOptions(Fields(catalog, p, t, ak, sk), ")", SECRET_KEY, ACCESS_KEY, TOKEN);
    PassesOver(catalog, p, t, ak, sk);
    PassesOver(catalog, p, t, ak, STARS);
    PassesOver(catalog, p, t, STARS, STARS);
    HiddenInStatement(catalog, p, s);
  }

  /** No needle in front of the options, whatever the catalog is named. */
  ghost predicate FreeFront(catalog: string, p: Profile) {
    forall b | b in {SECRET_KEY, ACCESS_KEY, TOKEN} :: Free(Front(catalog, p) + QUOTE, b)
  }

  lemma {:induction false} BuildIsFront(catalog: string, p: Profile, s: Secrets)
    ensures BuildAttachSql(catalog, p, s)
            == Front(catalog, p) + QUOTE
                + Render(Options(p, Escape(s.token), Escape(s.accessKey), Escape(s.secretKey)), ")")
  {
    hide Escape, Quoted, Options;
    BuildIsRender(catalog, p, s);
    var o := Options(p, Escape(s.token), Escape(s.accessKey), Escape(s.secretKey));
    RenderQuoted(Warehouse(catalog, Escape(p.warehouse)), o, ")");
    RenderQuoted(Url(Escape(p.url)), Cons(Warehouse(catalog, Escape(p.warehouse)), o), ")");
    FrontText(catalog, Escape(p.url), Escape(p.warehouse), Render(o, ")"));
  }

  lemma {:induction false} FrontText(catalog: string, u: string, w: string, z: string)
    ensures Quoted("ATTACH ", u, Quoted(" AS " + catalog + " (TYPE iceberg_rest, WAREHOUSE ", w, z))
            == "ATTACH " + QUOTE + u + QUOTE + " AS " + catalog + " (TYPE iceberg_rest, WAREHOUSE " + QUOTE + w + QUOTE
                + z
  {
  }

  /** Behind such a front, and for any catalog name, the logged statement is the one with stars for the three
      secrets if and only if the options are discreet. */
  lemma {:induction false} RedactionBehindFront(catalog: string, p: Profile, s: Secrets)
    requires FreeFront(catalog, p)
    ensures RedactThree(BuildAttachSql(catalog, p, s), SECRET_KEY, ACCESS_KEY, TOKEN)
            == BuildAttachSql(catalog, p, HIDDEN)
            <==> DiscreetOptions(p, s)
  {
    hide Escape, Paired, Redact, DiscreetOptions, NothingHiddenThree, Wf, Plain, NameOk, BuildAttachSql, Starred,
        Options, Render, Front, Free;
    var t, ak, sk := Escape(s.token), Escape(s.accessKey), Escape(s.secretKey);
    var x, y := Front(catalog, p), Render(Options(p, t, ak, sk), ")");
    EscapeIsPaired(s.token);
    EscapeIsPaired(s.accessKey);
    EscapeIsPaired(s.secretKey);
    OptionsAreWf(p, t, ak, sk);
    BuildIsFront(catalog, p, s);
    BuildIsFront(catalog, p, HIDDEN);
    EscapeStars();
    NamesAreOk();
    var y1 := Redact(y, SECRET_KEY);
    SkipFree(x, y, SECRET_KEY);
    SkipFree(x, y1, ACCESS_KEY);
    SkipFree(x, Redact(y1, ACCESS_KEY), TOKEN);
    RedactThreeOptions(Options(p, t, ak, sk), ")", SECRET_KEY, ACCESS_KEY, TOKEN);
    PassesOver(catalog, p, t, ak, sk);
    PassesOver(catalog, p, t, ak, STARS);
    PassesOver(catalog, p, t, STARS, STARS);
    HiddenInStatement(catalog, p, s);
    SameFront(x + QUOTE, RedactThree(y, SECRET_KEY, ACCESS_KEY, TOKEN), Render(Options(p, STARS, STARS, STARS), ")"));
  }

  lemma {:induction false} SameFront(x: string, y: string, z: string)
    ensures x + y == x + z <==> y == z
  {
    assert (x + y)[|x|..] == y && (x + z)[|x|..] == z;
  }

  /** For a catalog name without quotes the front is free when neither value in it mentions an option. */
  lemma {:induction false} FrontIsFree(catalog: string, p: Profile)
    requires NoQuote(catalog)
    requires forall b | b in {SECRET_KEY, ACCESS_KEY, TOKEN} :: !Mentions(p.url, b) && !Mentions(p.warehouse, b)
    ensures FreeFront(catalog, p)
  {
    hide Escape, Mentions, Free, Named;
    NamesAreOk();
    NamesOfFields(catalog, p, [], [], []);
    HidingValues(p);
    IntrosArePlain();
    CatalogIsPlain(catalog);
    forall b | b in {SECRET_KEY, ACCESS_KEY, TOKEN} ensures Free(Front(catalog, p) + QUOTE, b) {
      var u, w := Escape(p.url), Escape(p.warehouse);
      var i1, i2 := "ATTACH ", " AS " + catalog + " (TYPE iceberg_rest, WAREHOUSE ";
      assert (Hides(u, b) <==> Mentions(p.url, b)) && (Hides(w, b) <==> Mentions(p.warehouse, b));
      IntroIsFree(Url(u), b);
      IntroIsFree(Warehouse(catalog, w), b);
      FreeJoin(i1, u, b);
      FreeJoin(i1 + QUOTE + u, i2, b);
      FreeJoin(i1 + QUOTE + u + QUOTE + i2, w, b);
      assert Front(catalog, p) == i1 + QUOTE + u + QUOTE + i2 + QUOTE + w;
    }
  }

  lemma {:induction false} IntroIsFree(f: Field, b: string)
    requires NameOk(b) && NoQuote(f.intro) && !Named(f, b)
    ensures Free(f.intro + QUOTE, b)
  {
    UnnamedIsFree(f.intro, b);
  }

  /** No choice of discreet secrets can be told from another in the log. */
  lemma {:induction false} SecretsDoNotShow(catalog: string, p: Profile, s1: Secrets, s2: Secrets)
    requires FreeFront(catalog, p) && DiscreetOptions(p, s1) && DiscreetOptions(p, s2)
    ensures RedactThree(BuildAttachSql(catalog, p, s1), SECRET_KEY, ACCESS_KEY, TOKEN)
            == RedactThree(BuildAttachSql(catalog, p, s2), SECRET_KEY, ACCESS_KEY, TOKEN)
  {
    hide RedactThree, BuildAttachSql, DiscreetOptions, FreeFront;
    RedactionBehindFront(catalog, p, s1);
    RedactionBehindFront(catalog, p, s2);
  }

  /** A token that names the secret-key option leaves more than stars in the log. */
  lemma ATokenThatShows()
    ensures var p, s := Profile("u", "w", "e", "r", true), Secrets("ak", "sk", "x S3_SECRET_KEY 'y");
            RedactThree(BuildAttachSql("c", p, s), SECRET_KEY, ACCESS_KEY, TOKEN) != BuildAttachSql("c", p, HIDDEN)
  {
    hide RedactThree, BuildAttachSql;
    var p, s := Profile("u", "w", "e", "r", true), Secrets("ak", "sk", "x S3_SECRET_KEY 'y");
    assert OccursAt(s.token, SECRET_KEY + QUOTE, 2);
    RedactionIsExact("c", p, s);
  }
}
