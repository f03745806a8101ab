/** The environment a session is given: built from nothing, with only locale settings taken
    over from the daemon's own. */
module SessionEnv {
  /** The locale variables, in the order they are looked up. */
  datatype Locale =
    | Lang | Language | LcAll | LcCtype | LcNumeric | LcTime | LcCollate | LcMonetary | LcMessages
    | LcPaper | LcName | LcAddress | LcTelephone | LcMeasurement | LcIdentification

  const LOCALE_VARS: seq<Locale> :=
    [Lang, Language, LcAll, LcCtype, LcNumeric, LcTime, LcCollate, LcMonetary, LcMessages,
     LcPaper, LcName, LcAddress, LcTelephone, LcMeasurement, LcIdentification]

  const UTF8: string := "C.UTF-8"

  /** A variable of the daemon's own environment is a locale variable or some other. */
  datatype Var = Locale(which: Locale) | Other(name: string)

  function Passed(vars: seq<Locale>, daemon: map<Var, string>): seq<(Locale, string)> {
    if vars == [] then []
    else
      var v := Locale(vars[0]);
      (if v in daemon && daemon[v] != "" then [(vars[0], daemon[v])] else []) + Passed(vars[1..], daemon)
  }

  predicate DecidesCharacters(which: Locale) {
    which.LcAll? || which.LcCtype? || which.Lang?
  }

  predicate HasCharacters(env: seq<(Locale, string)>) {
    exists i :: 0 <= i < |env| && DecidesCharacters(env[i].0)
  }

  function LocaleEnv(daemon: map<Var, string>): seq<(Locale, string)> {
    var env := Passed(LOCALE_VARS, daemon);
    if HasCharacters(env) then env else env + [(Lang, UTF8)]
  }

  predicate Set(daemon: map<Var, string>, which: Locale) {
    Locale(which) in daemon && daemon[Locale(which)] != ""
  }

  predicate Once(env: seq<(Locale, string)>) {
    forall i, j :: 0 <= i < j < |env| ==> env[i].0 != env[j].0
  }

  lemma {:induction false} PassedMeans(vars: seq<Locale>, daemon: map<Var, string>)
    requires forall i, j :: 0 <= i < j < |vars| ==> vars[i] != vars[j]
    ensures forall p :: p in Passed(vars, daemon) <==>
                        p.0 in vars && Set(daemon, p.0) && p.1 == daemon[Locale(p.0)]
    ensures Once(Passed(vars, daemon))
  {
    if vars != [] {
      PassedMeans(vars[1..], daemon);
      var later := Passed(vars[1..], daemon);
      assert forall w :: w in vars <==> w == vars[0] || w in vars[1..];
      assert forall i :: 0 <= i < |later| ==> later[i] in later && later[i].0 in vars[1..];
    }
  }

  lemma EveryLocaleListed(which: Locale)
    ensures which in LOCALE_VARS
  {
    var v := LOCALE_VARS;
    assert v[0] == Lang && v[1] == Language && v[2] == LcAll && v[3] == LcCtype && v[4] == LcNumeric;
    assert v[5] == LcTime && v[6] == LcCollate && v[7] == LcMonetary && v[8] == LcMessages && v[9] == LcPaper;
    assert v[10] == LcName && v[11] == LcAddress && v[12] == LcTelephone && v[13] == LcMeasurement;
    assert v[14] == LcIdentification;
  }

  /** Whatever the daemon's environment: each locale variable that is set there is passed on,
      once, with the daemon's own value; nothing else is, but for UTF-8 where otherwise
      nothing would decide the character type, which so is always decided. */
  lemma LocaleEnvMeans(daemon: map<Var, string>)
    ensures var env := LocaleEnv(daemon);
            var undecided := !Set(daemon, LcAll) && !Set(daemon, LcCtype) && !Set(daemon, Lang);
            && Once(env) && HasCharacters(env)
            && forall p :: p in env <==>
                           || (Set(daemon, p.0) && p.1 == daemon[Locale(p.0)])
                           || (undecided && p == (Lang, "C.UTF-8"))
  {
    hide *;
    forall which
      ensures which in LOCALE_VARS
    {
      EveryLocaleListed(which);
    }
    LocalesDistinct();
    PassedMeans(LOCALE_VARS, daemon);
    FallbackMeans(Passed(LOCALE_VARS, daemon), daemon);
  }

  lemma LocalesDistinct()
    ensures forall i, j :: 0 <= i < j < |LOCALE_VARS| ==> LOCALE_VARS[i] != LOCALE_VARS[j]
  {
  }

  lemma FallbackMeans(env: seq<(Locale, string)>, daemon: map<Var, string>)
    requires env == Passed(LOCALE_VARS, daemon) && Once(env)
    requires forall p :: p in env <==> Set(daemon, p.0) && p.1 == daemon[Locale(p.0)]
    ensures var undecided := !Set(daemon, LcAll) && !Set(daemon, LcCtype) && !Set(daemon, Lang);
            && Once(LocaleEnv(daemon)) && HasCharacters(LocaleEnv(daemon))
            && forall p :: p in LocaleEnv(daemon) <==>
                           || (Set(daemon, p.0) && p.1 == daemon[Locale(p.0)])
                           || (undecided && p == (Lang, "C.UTF-8"))
  {
    hide Passed;
    assert forall i :: 0 <= i < |env| ==> env[i] in env;
    if HasCharacters(env) {
      var i :| 0 <= i < |env| && DecidesCharacters(env[i].0);
    } else {
      var longer := env + [(Lang, UTF8)];
      assert DecidesCharacters(longer[|env|].0);
      assert forall which :: Set(daemon, which) ==> (which, daemon[Locale(which)]) in env;
    }
  }
}
