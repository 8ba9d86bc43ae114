// Start-up configuration checks over the process environment, given as a map
// from variable name to value (a name outside the map is unset).
module ConfigValidator {
  import opened Wrappers
  import D = DbValues

  type Env = map<string, string>

  const RequiredVars: seq<string> := ["SISCOMEX_CLIENT_ID", "SISCOMEX_CLIENT_SECRET", "POSTGRES_HOST",
    "POSTGRES_PORT", "POSTGRES_USER", "POSTGRES_PASSWORD", "POSTGRES_DB"]

  const OptionalVars: seq<string> := ["AWS_REGION", "AWS_ATHENA_WORKGROUP", "AWS_ATHENA_OUTPUT_LOCATION",
    "WHATSAPP_ENABLED", "WHATSAPP_BASE_URL", "WHATSAPP_INSTANCE", "WHATSAPP_APIKEY", "WHATSAPP_REMOTE_JID"]

  const PostgresVars: seq<string> := ["POSTGRES_HOST", "POSTGRES_PORT", "POSTGRES_USER",
    "POSTGRES_PASSWORD", "POSTGRES_DB"]

  predicate AllSpace(s: string)
  {
    forall i :: 0 <= i < |s| ==> D.IsSpace(s[i])
  }

  /** `not value or value.strip() == ''`: unset, empty or whitespace only. */
  predicate Blank(env: Env, name: string)
  {
    name !in env || AllSpace(env[name])
  }

  /** The variables of `vars` that are blank in `env`, in order. */
  function BlankOnes(vars: seq<string>, env: Env): (r: seq<string>)
    ensures |r| <= |vars|
    ensures forall v :: v in r <==> v in vars && Blank(env, v)
  {
    if vars == [] then []
    else BlankOnes(vars[..|vars| - 1], env) + (if Blank(env, vars[|vars| - 1]) then [vars[|vars| - 1]] else [])
  }

  /** The loop that collects the blank variables of `vars`. */
  method CollectBlank(vars: seq<string>, env: Env) returns (missing: seq<string>)
    ensures missing == BlankOnes(vars, env)
  {
    missing := [];
    for i := 0 to |vars|
      invariant missing == BlankOnes(vars[..i], env)
    {
      if Blank(env, vars[i]) {
        missing := missing + [vars[i]];
      }
      assert vars[..i + 1][..i] == vars[..i];
    }
    assert vars[..|vars|] == vars;
  }

  /** Verdict and reports of `validar_configuracao`. */
  datatype Report = Report(ok: bool, missing: seq<string>, missingOptional: seq<string>)

  /**
   * `validar_configuracao`: fails iff a required variable is blank; the
   * optional ones are only reported, and only once the required ones pass.
   */
  method ValidateConfiguration(env: Env) returns (r: Report)
    ensures r.ok <==> forall v :: v in RequiredVars ==> !Blank(env, v)
    ensures r.missing == BlankOnes(RequiredVars, env)
    ensures r.missingOptional == (if r.ok then BlankOnes(OptionalVars, env) else [])
  {
    var missing := CollectBlank(RequiredVars, env);
    if missing != [] {
      assert missing[0] in missing;
      return Report(false, missing, []);
    }
    var missingOptional := CollectBlank(OptionalVars, env);
    return Report(true, missing, missingOptional);
  }

  /** Whatever an optional or unrelated variable holds, the verdict does not change. */
  lemma {:induction false} OnlyRequiredVarsDecide(vars: seq<string>, env: Env, name: string, value: string)
    requires name !in vars
    ensures BlankOnes(vars, env[name := value]) == BlankOnes(vars, env)
  {
    if vars != [] {
      OnlyRequiredVarsDecide(vars[..|vars| - 1], env, name, value);
    }
  }

  // ---- `int(text)` for the port: surrounding whitespace, a sign, digits with single underscores. ----

  predicate IsDigit(c: char) { '0' <= c <= '9' }

  /** Digits with single underscores between them: first and last a digit, no two underscores in a row. */
  predicate DecimalDigits(s: string)
  {
    |s| > 0 && IsDigit(s[0]) && IsDigit(s[|s| - 1])
    && (forall i :: 0 <= i < |s| ==> IsDigit(s[i]) || s[i] == '_')
    && (forall i, j :: 0 <= i < |s| && 0 <= j < |s| && j == i + 1 ==> IsDigit(s[i]) || IsDigit(s[j]))
  }

  function DigitsValue(s: string): (n: nat)
  {
    if s == [] then 0
    else if IsDigit(s[|s| - 1]) then 10 * DigitsValue(s[..|s| - 1]) + (s[|s| - 1] as int - '0' as int)
    else DigitsValue(s[..|s| - 1])
  }

  /** Python's `int(s)` in base 10, `None` where it raises ValueError. */
  function PyInt(s: string): (r: Option<int>)
    ensures r.Some? ==> D.Strip(s) != []
  {
    Numeral(D.Strip(s))
  }

  /** `int()` on text already stripped: an optional sign, then digits with single underscores. */
  function Numeral(t: string): (r: Option<int>)
    ensures r.Some? ==> t != []
  {
    if t != [] && (t[0] == '+' || t[0] == '-') then
      var magnitude: int := DigitsValue(t[1..]);
      if DecimalDigits(t[1..]) then Some(if t[0] == '-' then -magnitude else magnitude)
      else None
    else if DecimalDigits(t) then Some(DigitsValue(t))
    else None
  }

  /** The port must be an integer from 1 to 65535. */
  predicate PortOk(text: string)
  {
    PyInt(text).Some? && 0 < PyInt(text).value <= 65535
  }

  /** Text without underscores, where the two readings of `int()` in this model meet. */
  predicate NoUnderscore(s: string)
  {
    forall i :: 0 <= i < |s| ==> s[i] != '_'
  }

  /** On plain digits the value read here is the one the database layer reads. */
  lemma {:induction false} DigitsValueAgrees(s: string)
    requires D.AllDigits(s)
    ensures DigitsValue(s) == D.DigitsValue(s)
    decreases |s|
  {
    if s != [] {
      assert D.AllDigits(s[..|s| - 1]);
      DigitsValueAgrees(s[..|s| - 1]);
    }
  }

  /** Without underscores, a numeral here is a non-empty run of digits. */
  lemma DecimalDigitsPlain(s: string)
    requires NoUnderscore(s)
    ensures DecimalDigits(s) <==> s != [] && D.AllDigits(s)
  {
    if s != [] && D.AllDigits(s) {
      assert IsDigit(s[0]) && IsDigit(s[|s| - 1]);
    }
    if DecimalDigits(s) {
      forall i | 0 <= i < |s| ensures '0' <= s[i] <= '9' {
        assert s[i] != '_';
      }
    }
  }

  /**
   * On text without underscores this reading of `int()` and the database
   * layer's (`DbValues.ParseInt`) give the same answer.
   */
  lemma PyIntAgrees(s: string)
    requires NoUnderscore(s)
    ensures PyInt(s) == D.ParseInt(s)
  {
    var t := D.Strip(s);
    StripNoUnderscore(s);
    if t != [] && (t[0] == '+' || t[0] == '-') {
      NumeralSigned(t);
    } else {
      NumeralUnsigned(t);
    }
  }

  /** Stripping keeps a text free of underscores. */
  lemma StripNoUnderscore(s: string)
    requires NoUnderscore(s)
    ensures NoUnderscore(D.Strip(s))
  {
    var t := D.Strip(s);
    forall i | 0 <= i < |t| ensures t[i] != '_' {
      assert t[i] == s[D.LeadingSpace(s) + i];
    }
  }

  /** A signed numeral without underscores: a sign and ASCII digits, as `DbValues` reads it. */
  lemma NumeralSigned(t: string)
    requires NoUnderscore(t) && t != [] && (t[0] == '+' || t[0] == '-')
    ensures Numeral(t) == if t[1..] != [] && D.AllDigits(t[1..])
                          then Some(if t[0] == '-' then -(D.DigitsValue(t[1..]) as int) else D.DigitsValue(t[1..]) as int)
                          else None
  {
    var ds := t[1..];
    assert NoUnderscore(ds) by {
      forall i | 0 <= i < |ds| ensures ds[i] != '_' {
        assert ds[i] == t[i + 1];
      }
    }
    DecimalDigitsPlain(ds);
    if D.AllDigits(ds) {
      DigitsValueAgrees(ds);
    }
  }

  /** An unsigned numeral without underscores: ASCII digits, as `DbValues` reads it. */
  lemma NumeralUnsigned(t: string)
    requires NoUnderscore(t) && !(t != [] && (t[0] == '+' || t[0] == '-'))
    ensures Numeral(t) == if t != [] && D.AllDigits(t) then Some(D.DigitsValue(t)) else None
  {
    DecimalDigitsPlain(t);
    if D.AllDigits(t) {
      DigitsValueAgrees(t);
    }
  }

  /** `int(str(n)) == n` for every integer. */
  lemma PyIntOfString(n: int)
    ensures PyInt(IntToString(n)) == Some(n)
  {
    var s := IntToString(n);
    assert NoUnderscore(s) by {
      var ds := NatToString(if n < 0 then -n else n);
      assert s == if n < 0 then "-" + ds else ds;
      forall i | 0 <= i < |s| ensures s[i] != '_' {
        if n < 0 && i > 0 {
          assert s[i] == ds[i - 1];
        }
      }
    }
    PyIntAgrees(s);
    D.ParseIntOfString(n);
  }

  /** The port check accepts the decimal rendering of exactly the numbers 1 to 65535. */
  lemma PortOkOfNumeral(n: int)
    ensures PortOk(IntToString(n)) <==> 1 <= n <= 65535
  {
    PyIntOfString(n);
  }

  /** White space around a numeral does not change what `int()` reads. */
  lemma PaddingIgnored(pre: string, m: string, post: string)
    requires AllSpace(pre) && AllSpace(post)
    requires m != [] && !D.IsSpace(m[0]) && !D.IsSpace(m[|m| - 1])
    ensures PyInt(pre + m + post) == PyInt(m)
  {
    StripPadded(pre, m, post);
    D.StripUnchanged(m);
    assert PyInt(pre + m + post) == Numeral(m);
  }

  /** Stripping removes exactly the white space around a text that neither starts nor ends with white space. */
  lemma StripPadded(pre: string, m: string, post: string)
    requires AllSpace(pre) && AllSpace(post)
    requires m != [] && !D.IsSpace(m[0]) && !D.IsSpace(m[|m| - 1])
    ensures D.Strip(pre + m + post) == m
  {
    var s := pre + m + post;
    var r := D.Strip(s);
    LeadingPadded(pre, m, post);
    assert s[|pre| + |m| - 1] == m[|m| - 1];
    assert |pre| <= |pre| + |m| - 1 < |pre| + |r|;
    assert s[|pre| + |r| - 1] == r[|r| - 1];
    assert forall k :: |pre| + |m| <= k < |s| ==> s[k] == post[k - |pre| - |m|];
    assert |r| == |m|;
    assert s[|pre|..|pre| + |m|] == m;
  }

  /** The white space that pads a numeral on the left is exactly the padding. */
  lemma LeadingPadded(pre: string, m: string, post: string)
    requires AllSpace(pre)
    requires m != [] && !D.IsSpace(m[0])
    ensures D.LeadingSpace(pre + m + post) == |pre|
  {
    var s := pre + m + post;
    var l := D.LeadingSpace(s);
    assert s[|pre|] == m[0];
    assert forall k :: 0 <= k < |pre| ==> s[k] == pre[k];
  }

  /** A '+' before a numeral does not change what `int()` reads. */
  lemma PlusIgnored(ds: string)
    requires DecimalDigits(ds)
    ensures PyInt("+" + ds) == PyInt(ds) == Some(DigitsValue(ds))
  {
    D.StripUnchanged(ds);
    var m := "+" + ds;
    assert m[0] == '+' && m[|m| - 1] == ds[|ds| - 1];
    D.StripUnchanged(m);
    assert PyInt(m) == Numeral(m) && PyInt(ds) == Numeral(ds);
    NumeralPlus(ds);
  }

  lemma NumeralPlus(ds: string)
    requires DecimalDigits(ds)
    ensures Numeral("+" + ds) == Numeral(ds) == Some(DigitsValue(ds))
  {
    var m := "+" + ds;
    assert m[1..] == ds;
    assert ds[0] != '+' && ds[0] != '-';
  }

  /**
   * `validar_configuracao_postgres`: every variable set to a non-empty value
   * (a blank one passes here) and a usable port.
   */
  method ValidatePostgres(env: Env) returns (ok: bool)
    ensures ok <==> (forall v :: v in PostgresVars ==> v in env && env[v] != "") && PortOk(env["POSTGRES_PORT"])
  {
    for i := 0 to |PostgresVars|
      invariant forall j :: 0 <= j < i ==> PostgresVars[j] in env && env[PostgresVars[j]] != ""
    {
      if PostgresVars[i] !in env || env[PostgresVars[i]] == "" {
        return false;
      }
    }
    assert "POSTGRES_PORT" == PostgresVars[1];
    var port := PyInt(env["POSTGRES_PORT"]);
    if port.None? || port.value <= 0 || port.value > 65535 {
      return false;
    }
    return true;
  }

  /** `validar_configuracao_siscomex`: both credentials set, each at least ten characters. */
  function ValidSiscomex(env: Env): (ok: bool)
    ensures ok ==> "SISCOMEX_CLIENT_ID" in env && "SISCOMEX_CLIENT_SECRET" in env
    ensures ok <==> "SISCOMEX_CLIENT_ID" in env && "SISCOMEX_CLIENT_SECRET" in env
                    && |env["SISCOMEX_CLIENT_ID"]| >= 10 && |env["SISCOMEX_CLIENT_SECRET"]| >= 10
  {
    if "SISCOMEX_CLIENT_ID" !in env || "SISCOMEX_CLIENT_SECRET" !in env then false
    else if env["SISCOMEX_CLIENT_ID"] == "" || env["SISCOMEX_CLIENT_SECRET"] == "" then false
    else if |env["SISCOMEX_CLIENT_ID"]| < 10 then false
    else |env["SISCOMEX_CLIENT_SECRET"]| >= 10
  }

  /** `int()` reads a plain port as its digits. */
  lemma PortExamples()
    ensures PyInt("5432") == Some(5432)
  {
    D.StripUnchanged("5432");
    assert DigitsValue("5432") == 5432 by {
      assert "5432"[..3] == "543" && "543"[..2] == "54" && "54"[..1] == "5" && "5"[..0] == "";
    }
  }

  /** A port written with surrounding spaces and a plus sign is read as its digits. */
  lemma SpacedPort()
    ensures PortOk(" +5432 ")
  {
    StripSpacedPort();
    assert "+5432"[1..] == "5432";
    assert DigitsValue("5432") == 5432 by {
      assert "5432"[..3] == "543" && "543"[..2] == "54" && "54"[..1] == "5" && "5"[..0] == "";
    }
  }

  lemma StripSpacedPort()
    ensures D.Strip(" +5432 ") == "+5432"
  {
    assert D.LeadingSpace(" +5432 ") == 1 by {
      assert " +5432 "[1..] == "+5432 ";
    }
    assert D.TrailingSpace(" +5432 ") == 6 by {
      assert " +5432 "[..6] == " +5432";
    }
    assert " +5432 "[1..6] == "+5432";
  }

  /** Zero is refused. */
  lemma ZeroPortRejected()
    ensures !PortOk("0")
  {
    D.StripUnchanged("0");
  }

  /** A number above 65535 is refused. */
  lemma LargePortRejected()
    ensures !PortOk("65536")
  {
    D.StripUnchanged("65536");
    assert DigitsValue("65536") == 65536 by {
      assert "65536"[..4] == "6553" && "6553"[..3] == "655" && "655"[..2] == "65" && "65"[..1] == "6";
    }
  }

  /** A trailing underscore is refused. */
  lemma TrailingUnderscoreRejected()
    ensures !PortOk("54_")
  {
    D.StripUnchanged("54_");
  }

  /** Underscores between digits are accepted, as Python's `int()` accepts them. */
  lemma UnderscorePort()
    ensures PortOk("5_432")
  {
    D.StripUnchanged("5_432");
    assert DigitsValue("5_432") == 5432 by {
      assert "5_432"[..4] == "5_43" && "5_43"[..3] == "5_4" && "5_4"[..2] == "5_" && "5_"[..1] == "5";
    }
  }

}
