/**
 * The SAML attribute definition value object: a name, an optional urn:mace
 * identifier, an optional urn:oid identifier and a multiplicity, validated
 * once when the object is built and never changed afterwards.
 */
module Attribute {
  import opened Wrappers
  import opened PhpValues

  const MULTIPLICITY_SINGLE: int := 1
  const MULTIPLICITY_MULTIPLE: int := 2

  /** The two multiplicities the constructor accepts. */
  predicate IsMultiplicity(k: int) {
    k == MULTIPLICITY_SINGLE || k == MULTIPLICITY_MULTIPLE
  }

  /** The constructor parameter an invalid-type error is about. */
  datatype Param = Name | UrnMace | UrnOid

  /** The type an invalid-type error says the parameter should have had. */
  datatype ExpectedType = StringType | NullOrString

  /**
   * Why construction failed: a parameter of the wrong type (invalid-argument
   * fault), neither URN given (logic fault), or a multiplicity outside the two
   * legal values (invalid-argument fault). Each carries what its message shows.
   */
  datatype Error =
    | InvalidType(expected: ExpectedType, param: Param, actual: PhpValue)
    | MissingUrn
    | InvalidMultiplicity(given: int)

  /** A stored URN as the getter hands it back: PHP null when absent. */
  function ToNullable(urn: Option<string>): (v: PhpValue)
    ensures v.Null? || v.Str?
    ensures v.Null? <==> urn.None?
  {
    match urn
    case None => Null
    case Some(s) => Str(s)
  }

  /** A URN argument that passed the "null or string" check, as it is stored. */
  function FromNullable(v: PhpValue): (urn: Option<string>)
    requires v.Null? || v.Str?
    ensures urn.None? <==> v.Null?
  {
    if v.Null? then None else Some(v.s)
  }

  lemma NullableRoundTrip(urn: Option<string>, v: PhpValue)
    ensures FromNullable(ToNullable(urn)) == urn
    ensures v.Null? || v.Str? ==> ToNullable(FromNullable(v)) == v
  {
  }

  datatype AttributeDefinition = AttributeDefinition(
    name: string,
    multiplicity: int,
    urnMace: Option<string>,
    urnOid: Option<string>)
  {
    /** What the constructor guarantees of every object it returns. */
    predicate Valid() {
      && (urnMace.Some? || urnOid.Some?)
      && IsMultiplicity(multiplicity)
    }

    function GetName(): string {
      name
    }

    /** True exactly when the urn:mace getter does not return null. */
    function HasUrnMace(): (r: bool)
      ensures r <==> GetUrnMace() != Null
    {
      urnMace.Some?
    }

    /** The stored urn:mace identifier, or null when there is none. */
    function GetUrnMace(): (v: PhpValue)
      ensures v.Null? || v.Str?
      ensures FromNullable(v) == urnMace
    {
      ToNullable(urnMace)
    }

    /** True exactly when the urn:oid getter does not return null. */
    function HasUrnOid(): (r: bool)
      ensures r <==> GetUrnOid() != Null
    {
      urnOid.Some?
    }

    /** The stored urn:oid identifier, or null when there is none. */
    function GetUrnOid(): (v: PhpValue)
      ensures v.Null? || v.Str?
      ensures FromNullable(v) == urnOid
    {
      ToNullable(urnOid)
    }

    /** The stored multiplicity; on a valid definition, single or multiple. */
    function GetMultiplicity(): (k: int)
      ensures Valid() ==> IsMultiplicity(k)
    {
      multiplicity
    }

    /**
     * Field-by-field strict identity. Every field here holds a plain value,
     * so PHP's `===` on each is value equality, and the whole comparison is
     * equality of the two definitions.
     */
    function Equals(other: AttributeDefinition): (r: bool)
      ensures r <==> this == other
    {
      && name == other.name
      && urnOid == other.urnOid
      && urnMace == other.urnMace
      && multiplicity == other.multiplicity
    }
  }

  /**
   * The constructor. Checks run in the order the source performs them and the
   * first one that fails decides the error; only when all pass are the four
   * fields stored, unchanged. Defaults: no URNs, single multiplicity.
   */
  function New(
    name: PhpValue,
    urnMace: PhpValue := Null,
    urnOid: PhpValue := Null,
    multiplicity: int := MULTIPLICITY_SINGLE): (r: Result<AttributeDefinition, Error>)
    ensures r.Success? <==> AllGuardsHold(Guards(name, urnMace, urnOid, multiplicity))
    ensures r.Success? ==>
      && r.value.Valid()
      && Str(r.value.GetName()) == name
      && r.value.GetUrnMace() == urnMace
      && r.value.GetUrnOid() == urnOid
      && r.value.GetMultiplicity() == multiplicity
  {
    var gs := Guards(name, urnMace, urnOid, multiplicity);
    assert AllGuardsHold(gs) <==> gs[0].holds && gs[1].holds && gs[2].holds && gs[3].holds && gs[4].holds;
    if !name.Str? then
      Failure(InvalidType(StringType, Name, name))
    else if !urnMace.Null? && !urnMace.Str? then
      Failure(InvalidType(NullOrString, UrnMace, urnMace))
    else if !urnOid.Null? && !urnOid.Str? then
      Failure(InvalidType(NullOrString, UrnOid, urnOid))
    else if urnOid.Null? && urnMace.Null? then
      Failure(MissingUrn)
    else if !IsMultiplicity(multiplicity) then
      Failure(InvalidMultiplicity(multiplicity))
    else
      Success(AttributeDefinition(name.s, multiplicity, FromNullable(urnMace), FromNullable(urnOid)))
  }

  // ---------------------------------------------------------------------------
  // The validation chain as data: an independent statement of which error wins.

  /** One guard of the constructor: the condition it demands and the error it raises otherwise. */
  datatype Guard = Guard(holds: bool, error: Error)

  /** The constructor's guards, in the order the source checks them. */
  function Guards(name: PhpValue, urnMace: PhpValue, urnOid: PhpValue, multiplicity: int): (gs: seq<Guard>)
    ensures |gs| == 5
  {
    [ Guard(name.Str?, InvalidType(StringType, Name, name)),
      Guard(urnMace.Null? || urnMace.Str?, InvalidType(NullOrString, UrnMace, urnMace)),
      Guard(urnOid.Null? || urnOid.Str?, InvalidType(NullOrString, UrnOid, urnOid)),
      Guard(!(urnOid.Null? && urnMace.Null?), MissingUrn),
      Guard(IsMultiplicity(multiplicity), InvalidMultiplicity(multiplicity)) ]
  }

  predicate AllGuardsHold(gs: seq<Guard>) {
    forall i :: 0 <= i < |gs| ==> gs[i].holds
  }

  /** The error of the first guard that does not hold, if any. */
  function FirstFailure(gs: seq<Guard>): (r: Option<Error>)
    ensures r.None? <==> AllGuardsHold(gs)
    ensures r.Some? ==>
      exists i :: 0 <= i < |gs| && !gs[i].holds && gs[i].error == r.value
                  && forall j :: 0 <= j < i ==> gs[j].holds
  {
    if |gs| == 0 then None
    else if !gs[0].holds then Some(gs[0].error)
    else
      var rest := FirstFailure(gs[1..]);
      assert forall i :: 1 <= i < |gs| ==> gs[i] == gs[1..][i - 1];
      rest
  }

  /** The constructor reports exactly the error of the first guard, in source order, that fails. */
  lemma NewReportsFirstFailedGuard(name: PhpValue, urnMace: PhpValue, urnOid: PhpValue, multiplicity: int)
    ensures New(name, urnMace, urnOid, multiplicity).Failure?
        <==> FirstFailure(Guards(name, urnMace, urnOid, multiplicity)).Some?
    ensures New(name, urnMace, urnOid, multiplicity).Failure? ==>
      Some(New(name, urnMace, urnOid, multiplicity).error)
        == FirstFailure(Guards(name, urnMace, urnOid, multiplicity))
  {
    var gs := Guards(name, urnMace, urnOid, multiplicity);
    var s1, s2, s3, s4 := gs[1..], gs[2..], gs[3..], gs[4..];
    assert s1[1..] == s2 && s2[1..] == s3 && s3[1..] == s4 && s4[1..] == [];
    assert FirstFailure(s4) == if gs[4].holds then None else Some(gs[4].error);
    assert FirstFailure(s3) == if gs[3].holds then FirstFailure(s4) else Some(gs[3].error);
    assert FirstFailure(s2) == if gs[2].holds then FirstFailure(s3) else Some(gs[2].error);
    assert FirstFailure(s1) == if gs[1].holds then FirstFailure(s2) else Some(gs[1].error);
    assert FirstFailure(gs) == if gs[0].holds then FirstFailure(s1) else Some(gs[0].error);
  }

  // ---------------------------------------------------------------------------
  // The error cases one by one.

  /** A name that is not a string fails first, whatever the other arguments are. */
  lemma NonStringNameFails(name: PhpValue, urnMace: PhpValue, urnOid: PhpValue, multiplicity: int)
    requires !name.Str?
    ensures New(name, urnMace, urnOid, multiplicity) == Failure(InvalidType(StringType, Name, name))
  {
  }

  /** A urn:mace that is neither null nor a string fails next, before urn:oid is looked at. */
  lemma BadUrnMaceFails(name: PhpValue, urnMace: PhpValue, urnOid: PhpValue, multiplicity: int)
    requires name.Str?
    requires !urnMace.Null? && !urnMace.Str?
    ensures New(name, urnMace, urnOid, multiplicity) == Failure(InvalidType(NullOrString, UrnMace, urnMace))
  {
  }

  /** A urn:oid that is neither null nor a string fails once name and urn:mace passed. */
  lemma BadUrnOidFails(name: PhpValue, urnMace: PhpValue, urnOid: PhpValue, multiplicity: int)
    requires name.Str? && (urnMace.Null? || urnMace.Str?)
    requires !urnOid.Null? && !urnOid.Str?
    ensures New(name, urnMace, urnOid, multiplicity) == Failure(InvalidType(NullOrString, UrnOid, urnOid))
  {
  }

  /** With well-typed arguments and no URN at all, the missing-URN error wins, even over a bad multiplicity. */
  lemma NoUrnFails(name: PhpValue, multiplicity: int)
    requires name.Str?
    ensures New(name, Null, Null, multiplicity) == Failure(MissingUrn)
  {
  }

  /** With everything else in order, a multiplicity other than single or multiple fails last. */
  lemma BadMultiplicityFails(name: PhpValue, urnMace: PhpValue, urnOid: PhpValue, multiplicity: int)
    requires name.Str? && (urnMace.Null? || urnMace.Str?) && (urnOid.Null? || urnOid.Str?)
    requires urnMace.Str? || urnOid.Str?
    requires !IsMultiplicity(multiplicity)
    ensures New(name, urnMace, urnOid, multiplicity) == Failure(InvalidMultiplicity(multiplicity))
  {
  }

  /** Leaving out the multiplicity is the same as asking for a single-valued attribute. */
  lemma DefaultMultiplicityIsSingle(name: PhpValue, urnMace: PhpValue, urnOid: PhpValue)
    ensures New(name, urnMace, urnOid) == New(name, urnMace, urnOid, MULTIPLICITY_SINGLE)
    ensures New(name, urnMace, urnOid).Success? ==>
      New(name, urnMace, urnOid).value.GetMultiplicity() == MULTIPLICITY_SINGLE
  {
  }

  /** A definition built from a name alone never exists: both URNs default to null. */
  lemma NameAloneFails(name: PhpValue)
    ensures New(name).Failure?
    ensures name.Str? ==> New(name) == Failure(MissingUrn)
  {
  }

  // ---------------------------------------------------------------------------
  // What a successfully built definition looks like.

  /** Any string is a valid name, the empty one included; URNs are not checked for syntax. */
  lemma AnyStringsAccepted(name: string, urnMace: string, urnOid: PhpValue, multiplicity: int)
    requires urnOid.Null? || urnOid.Str?
    requires IsMultiplicity(multiplicity)
    ensures New(Str(name), Str(urnMace), urnOid, multiplicity)
         == Success(AttributeDefinition(name, multiplicity, Some(urnMace), FromNullable(urnOid)))
  {
  }

  /** The name getter returns the name argument, character for character. */
  lemma GetNameReturnsArgument(name: PhpValue, urnMace: PhpValue, urnOid: PhpValue, multiplicity: int)
    requires New(name, urnMace, urnOid, multiplicity).Success?
    ensures name.Str? && New(name, urnMace, urnOid, multiplicity).value.GetName() == name.s
  {
  }

  /** The multiplicity getter returns the multiplicity argument, which is single or multiple. */
  lemma GetMultiplicityReturnsArgument(name: PhpValue, urnMace: PhpValue, urnOid: PhpValue, multiplicity: int)
    requires New(name, urnMace, urnOid, multiplicity).Success?
    ensures New(name, urnMace, urnOid, multiplicity).value.GetMultiplicity() == multiplicity
    ensures IsMultiplicity(multiplicity)
  {
  }

  /** Every constructed definition has at least one of its two URNs. */
  lemma ConstructedHasUrn(name: PhpValue, urnMace: PhpValue, urnOid: PhpValue, multiplicity: int)
    requires New(name, urnMace, urnOid, multiplicity).Success?
    ensures New(name, urnMace, urnOid, multiplicity).value.HasUrnMace()
         || New(name, urnMace, urnOid, multiplicity).value.HasUrnOid()
  {
  }

  /** The presence tests report exactly which URN arguments were not null. */
  lemma PresenceMatchesArguments(name: PhpValue, urnMace: PhpValue, urnOid: PhpValue, multiplicity: int)
    requires New(name, urnMace, urnOid, multiplicity).Success?
    ensures New(name, urnMace, urnOid, multiplicity).value.HasUrnMace() <==> !urnMace.Null?
    ensures New(name, urnMace, urnOid, multiplicity).value.HasUrnOid() <==> !urnOid.Null?
  {
  }

  /**
   * The valid definitions are exactly the objects the constructor can return:
   * it returns only valid ones, and each valid one comes from some arguments.
   */
  lemma ValidIsImageOfNew(d: AttributeDefinition)
    ensures d.Valid() <==>
      exists name, urnMace, urnOid, multiplicity :: New(name, urnMace, urnOid, multiplicity) == Success(d)
  {
    if d.Valid() {
      var urnMace, urnOid := ToNullable(d.urnMace), ToNullable(d.urnOid);
      NullableRoundTrip(d.urnMace, Null);
      NullableRoundTrip(d.urnOid, Null);
      assert New(Str(d.name), urnMace, urnOid, d.multiplicity) == Success(d);
    }
  }

  /** The errors the constructor can raise: each guard's error, with an argument that fails that guard. */
  predicate Reportable(e: Error) {
    match e
    case InvalidType(StringType, Name, v) => !v.Str?
    case InvalidType(NullOrString, UrnMace, v) => !v.Null? && !v.Str?
    case InvalidType(NullOrString, UrnOid, v) => !v.Null? && !v.Str?
    case InvalidType(_, _, _) => false
    case MissingUrn => true
    case InvalidMultiplicity(k) => !IsMultiplicity(k)
  }

  /** The constructor raises exactly the reportable errors, and each of them can happen. */
  lemma ErrorsAreExactlyReportable(e: Error)
    ensures Reportable(e) <==>
      exists name, urnMace, urnOid, multiplicity :: New(name, urnMace, urnOid, multiplicity) == Failure(e)
  {
    if Reportable(e) {
      match e
      case InvalidType(StringType, Name, v) =>
        assert New(v, Null, Null, MULTIPLICITY_SINGLE) == Failure(e);
      case InvalidType(NullOrString, UrnMace, v) =>
        assert New(Str(""), v, Null, MULTIPLICITY_SINGLE) == Failure(e);
      case InvalidType(NullOrString, UrnOid, v) =>
        assert New(Str(""), Null, v, MULTIPLICITY_SINGLE) == Failure(e);
      case MissingUrn =>
        assert New(Str(""), Null, Null, MULTIPLICITY_SINGLE) == Failure(e);
      case InvalidMultiplicity(k) =>
        assert New(Str(""), Str(""), Null, k) == Failure(e);
    }
  }

  // ---------------------------------------------------------------------------
  // Equality.

  /** Two constructed definitions are equal exactly when they were built from the same arguments. */
  lemma EqualsIffSameArguments(
    name1: PhpValue, urnMace1: PhpValue, urnOid1: PhpValue, multiplicity1: int,
    name2: PhpValue, urnMace2: PhpValue, urnOid2: PhpValue, multiplicity2: int)
    requires New(name1, urnMace1, urnOid1, multiplicity1).Success?
    requires New(name2, urnMace2, urnOid2, multiplicity2).Success?
    ensures New(name1, urnMace1, urnOid1, multiplicity1).value.Equals(
              New(name2, urnMace2, urnOid2, multiplicity2).value)
        <==> (name1, urnMace1, urnOid1, multiplicity1) == (name2, urnMace2, urnOid2, multiplicity2)
  {
    var d1 := New(name1, urnMace1, urnOid1, multiplicity1).value;
    var d2 := New(name2, urnMace2, urnOid2, multiplicity2).value;
    if d1 == d2 {
      assert urnMace1 == d1.GetUrnMace() == d2.GetUrnMace() == urnMace2;
      assert urnOid1 == d1.GetUrnOid() == d2.GetUrnOid() == urnOid2;
    }
  }

  /** Equals is an equivalence relation. */
  lemma EqualsIsEquivalence(a: AttributeDefinition, b: AttributeDefinition, c: AttributeDefinition)
    ensures a.Equals(a)
    ensures a.Equals(b) <==> b.Equals(a)
    ensures a.Equals(b) && b.Equals(c) ==> a.Equals(c)
  {
  }

  // ---------------------------------------------------------------------------
  // Concrete definitions.

  lemma ExampleCommonName()
    ensures New(Str("cn"), Str("urn:mace:dir:attribute-def:cn"), Null, MULTIPLICITY_SINGLE).Success?
    ensures var d := New(Str("cn"), Str("urn:mace:dir:attribute-def:cn"), Null, MULTIPLICITY_SINGLE).value;
      d.GetName() == "cn" && d.HasUrnMace() && !d.HasUrnOid() && d.GetMultiplicity() == MULTIPLICITY_SINGLE
  {
  }

  lemma ExampleMailByOid()
    ensures New(Str("mail"), Null, Str("urn:oid:0.9.2342.19200300.100.1.3"), MULTIPLICITY_MULTIPLE).Success?
    ensures New(Str("mail"), Null, Str("urn:oid:0.9.2342.19200300.100.1.3"), MULTIPLICITY_MULTIPLE).value.HasUrnOid()
  {
  }

  lemma ExampleBadMultiplicity()
    ensures New(Str("mail"), Str("urn:mace:x"), Str("urn:oid:y"), 99) == Failure(InvalidMultiplicity(99))
  {
  }
}
