/** The deployment environments and the choice among them by `NODE_ENV`
    (lib/config.js). The SMS credentials of each environment are not part of
    this model. */
module Config {
  import opened Json

  datatype Environment = Environment(
    httpPort: nat,
    httpsPort: nat,
    envName: string,
    hashingSecret: string,
    maxChecks: nat)

  const Staging := Environment(4000, 4001, "staging", "sacredsecret", 5)
  const Production := Environment(5000, 5001, "production", "sacredsecret", 5)

  /** The own properties of the `environments` object. */
  const Environments: map<string, Environment> := map["staging" := Staging, "production" := Production]

  /** `typeof(process.env.NODE_ENV) == 'string' ? NODE_ENV.toLowerCase() : ""`. */
  function CurrentName(nodeEnv: Option<string>): string
  {
    match nodeEnv
    case None => ""
    case Some(s) => Lower(s)
  }

  // ---------------------------------------------------------------------
  // As written: `environments[name]` is a property read on a plain object,
  // so it also sees what the object inherits from `Object.prototype`. Every
  // inherited property is a function (typeof "function") except
  // `__proto__`, which is `Object.prototype` itself (typeof "object").

  datatype Exported = Env(env: Environment) | ObjectPrototype

  function ExportedAsWritten(nodeEnv: Option<string>): (r: Exported)
  {
    var name := CurrentName(nodeEnv);
    if name in Environments then Env(Environments[name])
    else if name == "__proto__" then ObjectPrototype
    else Env(Staging)
  }

  /** With `NODE_ENV=__proto__` the module exports `Object.prototype`, which
      has no ports and no `maxChecks`, instead of falling back to staging. */
  lemma ProtoNameEscapesFallback()
    ensures ExportedAsWritten(Some("__PROTO__")) == ObjectPrototype
    ensures ExportedAsWritten(Some("__proto__")) == ObjectPrototype
  {
    LowerProtoNames();
    ProtoIsNoEnvironment();
  }

  lemma LowerProtoNames()
    ensures Lower("__PROTO__") == "__proto__" && Lower("__proto__") == "__proto__"
  {
    LowerProtoUpper();
    LowerProtoLower();
  }

  lemma LowerProtoUpper()
    ensures Lower("__PROTO__") == "__proto__"
  {
    LowerLiteral("__PROTO__", "__proto__");
  }

  lemma LowerProtoLower()
    ensures Lower("__proto__") == "__proto__"
  {
    LowerLiteral("__proto__", "__proto__");
  }

  lemma ProtoIsNoEnvironment()
    ensures "__proto__" !in Environments
  {
  }

  // ---------------------------------------------------------------------
  // Intended: only the two declared environments are selectable; anything
  // else falls back to staging. The rest of the model uses this.

  function Select(nodeEnv: Option<string>): (r: Environment)
    ensures r in Environments.Values
    ensures r == Production <==> CurrentName(nodeEnv) == "production"
    ensures r == Staging <==> CurrentName(nodeEnv) != "production"
  {
    var name := CurrentName(nodeEnv);
    assert Environments["staging"] == Staging;
    if name in Environments then Environments[name] else Staging
  }

  /** The intended selection agrees with the written one on every name except
      `__proto__`. */
  lemma SelectAgreesExceptProto(nodeEnv: Option<string>)
    ensures CurrentName(nodeEnv) != "__proto__" ==> ExportedAsWritten(nodeEnv) == Env(Select(nodeEnv))
    ensures CurrentName(nodeEnv) == "__proto__" ==> Select(nodeEnv) == Staging
  {
  }

  /** An unset `NODE_ENV`, or one naming no environment, selects staging. */
  lemma UnknownSelectsStaging(nodeEnv: Option<string>)
    requires nodeEnv.None? || CurrentName(nodeEnv) !in Environments
    ensures Select(nodeEnv) == Staging
  {
  }

  /** `NODE_ENV` is matched without regard to ASCII letter case. */
  lemma {:induction false} SelectIgnoresCase(s: string)
    ensures Select(Some(s)) == Select(Some(Lower(s)))
  {
    LowerIdempotent(s);
  }

  /** Production listens on 5000/5001, staging on 4000/4001, and every
      environment caps a user at five checks. */
  lemma PortsAndCap(nodeEnv: Option<string>)
    ensures Select(nodeEnv).maxChecks == 5
    ensures CurrentName(nodeEnv) == "production" ==> Select(nodeEnv).httpPort == 5000 && Select(nodeEnv).httpsPort == 5001
    ensures CurrentName(nodeEnv) != "production" ==> Select(nodeEnv).httpPort == 4000 && Select(nodeEnv).httpsPort == 4001
  {
  }
}
