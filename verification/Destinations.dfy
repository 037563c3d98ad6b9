/** ActiveMQDestination's names: physical names, qualified names and temporary names. */
module Destinations {
  import opened Wrappers
  import opened Strings

  datatype Kind = Topic | Queue | TemporaryTopic | TemporaryQueue

  /** A destination as its clients tell it apart: the type and the physical name. */
  datatype Destination = Destination(kind: Kind, physicalName: string) {
    predicate IsTemporary() { kind.TemporaryTopic? || kind.TemporaryQueue? }

    predicate IsTopic() { kind.Topic? || kind.TemporaryTopic? }

    predicate IsComposite() { ',' in physicalName }

    function ToString(): string { Prefix(kind) + physicalName }
  }

  datatype DestinationError = InvalidDestinationType(typeCode: int)

  const QUEUE_QUALIFIED_PREFIX := "queue://"
  const TOPIC_QUALIFIED_PREFIX := "topic://"
  const TEMP_QUEUE_QUALIFIED_PREFIX := "temp-queue://"
  const TEMP_TOPIC_QUALIFIED_PREFIX := "temp-topic://"
  const TEMP_PREFIX := "{TD{"
  const TEMP_POSTFIX := "}TD}"

  function Prefix(k: Kind): string {
    match k
    case Topic => TOPIC_QUALIFIED_PREFIX
    case TemporaryTopic => TEMP_TOPIC_QUALIFIED_PREFIX
    case TemporaryQueue => TEMP_QUEUE_QUALIFIED_PREFIX
    case Queue => QUEUE_QUALIFIED_PREFIX
  }

  /** The name that remains once the option string is cut off at the first '?'. */
  function PhysicalName(name: string): (r: string)
    ensures r <= name && '?' !in r
    ensures |r| < |name| ==> name[|r|] == '?'
    ensures r == name <==> '?' !in name
  {
    name[..IndexOf(name, '?')]
  }

  /** A destination of type `k` built from a name that may carry options. */
  function Named(k: Kind, name: string): Destination {
    Destination(k, PhysicalName(name))
  }

  /** cms::Destination::DestinationType, in the order of the enum. */
  function KindOfCode(typeCode: int): Option<Kind> {
    if typeCode == 0 then Some(Topic)
    else if typeCode == 1 then Some(Queue)
    else if typeCode == 2 then Some(TemporaryTopic)
    else if typeCode == 3 then Some(TemporaryQueue)
    else None
  }

  /** The source's test name.find(prefix) == 0; see FindAtZero. */
  predicate HasQualifier(name: string, k: Kind) {
    Prefix(k) <= name
  }

  lemma FindAtZero(s: string, p: string)
    ensures Find(s, p) == Some(0) <==> p <= s
  {
    assert OccursAt(s, p, 0) <==> p <= s;
  }

  /** The type whose qualifier starts the name, tried in the source's order. */
  function Qualifier(name: string): Option<Kind> {
    if HasQualifier(name, Queue) then Some(Queue)
    else if HasQualifier(name, Topic) then Some(Topic)
    else if HasQualifier(name, TemporaryQueue) then Some(TemporaryQueue)
    else if HasQualifier(name, TemporaryTopic) then Some(TemporaryTopic)
    else None
  }

  function CreateDestination(typeCode: int, name: string): Result<Destination, DestinationError> {
    match Qualifier(name)
    case Some(k) =>
      assert Prefix(k) <= name;
      Success(Named(k, name[|Prefix(k)|..]))
    case None =>
      match KindOfCode(typeCode)
      case Some(k) => Success(Named(k, name))
      case None => Failure(InvalidDestinationType(typeCode))
  }

  function CreateTemporaryName(clientId: string): string {
    TEMP_PREFIX + clientId + TEMP_POSTFIX
  }

  function GetClientId(d: Destination): string {
    if !d.IsTemporary() then ""
    else
      match Find(d.physicalName, TEMP_PREFIX)
      case None => ""
      case Some(first) =>
        var start := first + |TEMP_PREFIX|;
        match RFind(d.physicalName, TEMP_POSTFIX)
        case None => ""
        case Some(stop) => if start < stop then d.physicalName[start..stop] else ""
  }

  /** At most one of the four prefixes starts a given name. */
  lemma PrefixesDisjoint(k: Kind, j: Kind, s: string)
    requires Prefix(k) <= s && Prefix(j) <= s
    ensures k == j
  {
    assert Prefix(k)[0] == s[0] == Prefix(j)[0];
    assert Prefix(k)[1] == s[1] == Prefix(j)[1];
    if |Prefix(k)| == 13 && |Prefix(j)| == 13 {
      assert Prefix(k)[5] == s[5] == Prefix(j)[5];
    }
  }

  lemma QualifierOf(k: Kind, s: string)
    requires Prefix(k) <= s
    ensures Qualifier(s) == Some(k)
  {
    forall j: Kind | HasQualifier(s, j) ensures j == k { PrefixesDisjoint(k, j, s); }
  }

  /** A qualified name overrides the default type, whatever follows the qualifier. */
  lemma QualifiedNameWins(typeCode: int, k: Kind, rest: string)
    ensures CreateDestination(typeCode, Prefix(k) + rest) == Success(Named(k, rest))
  {
    var s := Prefix(k) + rest;
    QualifierOf(k, s);
    assert s[|Prefix(k)|..] == rest;
  }

  /** Printing and parsing a destination gives it back, under any default type (even an
      invalid one), exactly when its name holds no '?'. */
  lemma QualifiedNameRoundTrip(typeCode: int, d: Destination)
    ensures CreateDestination(typeCode, d.ToString()) == Success(d) <==> '?' !in d.physicalName
  {
    QualifiedNameWins(typeCode, d.kind, d.physicalName);
  }

  /** A name without a qualifier takes the default type and fails only on a bad one. */
  lemma UnqualifiedNameTakesDefault(typeCode: int, name: string)
    requires forall k: Kind :: !(Prefix(k) <= name)
    ensures CreateDestination(typeCode, name) ==
            match KindOfCode(typeCode)
            case Some(k) => Success(Destination(k, PhysicalName(name)))
            case None => Failure(InvalidDestinationType(typeCode))
  {
    forall j: Kind ensures !HasQualifier(name, j) {}
  }

  /** The client id embedded in a temporary name is recovered exactly when it has no '?';
      ids that contain the markers themselves, and the empty id, are included. */
  lemma TemporaryNameRoundTrip(k: Kind, clientId: string)
    requires k.TemporaryTopic? || k.TemporaryQueue?
    ensures GetClientId(Named(k, CreateTemporaryName(clientId))) == clientId <==> '?' !in clientId
  {
    var name := CreateTemporaryName(clientId);
    if '?' in clientId {
      AnswerIsInName(Named(k, name));
    } else {
      forall i | 0 <= i < |name| ensures name[i] != '?' {
        if 4 <= i < 4 + |clientId| { assert name[i] == clientId[i - 4]; }
      }
      assert Named(k, name).physicalName == name;
      assert OccursAt(name, TEMP_PREFIX, 0);
      assert Find(name, TEMP_PREFIX) == Some(0);
      var last := 4 + |clientId|;
      assert OccursAt(name, TEMP_POSTFIX, last);
      assert RFind(name, TEMP_POSTFIX) == Some(last) by {
        forall j: nat | last < j ensures !OccursAt(name, TEMP_POSTFIX, j) {}
      }
      assert name[4..last] == clientId;
    }
  }

  lemma AnswerIsInName(d: Destination)
    requires '?' !in d.physicalName
    ensures '?' !in GetClientId(d)
  {
  }

  // ---- The strings and codes themselves ----

  /** The four qualifiers, under every default type. */
  lemma QualifiersSpelledOut(typeCode: int, rest: string)
    ensures CreateDestination(typeCode, "queue://" + rest) == Success(Destination(Queue, PhysicalName(rest)))
    ensures CreateDestination(typeCode, "topic://" + rest) == Success(Destination(Topic, PhysicalName(rest)))
    ensures CreateDestination(typeCode, "temp-queue://" + rest) == Success(Destination(TemporaryQueue, PhysicalName(rest)))
    ensures CreateDestination(typeCode, "temp-topic://" + rest) == Success(Destination(TemporaryTopic, PhysicalName(rest)))
  {
    QualifiedNameWins(typeCode, Queue, rest);
    QualifiedNameWins(typeCode, Topic, rest);
    QualifiedNameWins(typeCode, TemporaryQueue, rest);
    QualifiedNameWins(typeCode, TemporaryTopic, rest);
  }

  /** How a destination prints. */
  lemma PrintedSpelledOut(name: string)
    ensures Destination(Queue, name).ToString() == "queue://" + name
    ensures Destination(Topic, name).ToString() == "topic://" + name
    ensures Destination(TemporaryQueue, name).ToString() == "temp-queue://" + name
    ensures Destination(TemporaryTopic, name).ToString() == "temp-topic://" + name
  {
  }

  /** The default types by their codes, for a name that starts with none of the qualifiers. */
  lemma TypeCodesSpelledOut(typeCode: int, name: string)
    requires !("queue://" <= name) && !("topic://" <= name) && !("temp-queue://" <= name) && !("temp-topic://" <= name)
    ensures CreateDestination(0, name) == Success(Destination(Topic, PhysicalName(name)))
    ensures CreateDestination(1, name) == Success(Destination(Queue, PhysicalName(name)))
    ensures CreateDestination(2, name) == Success(Destination(TemporaryTopic, PhysicalName(name)))
    ensures CreateDestination(3, name) == Success(Destination(TemporaryQueue, PhysicalName(name)))
    ensures typeCode < 0 || 3 < typeCode ==> CreateDestination(typeCode, name) == Failure(InvalidDestinationType(typeCode))
  {
    forall k: Kind ensures !(Prefix(k) <= name) {}
    UnqualifiedNameTakesDefault(0, name);
    UnqualifiedNameTakesDefault(1, name);
    UnqualifiedNameTakesDefault(2, name);
    UnqualifiedNameTakesDefault(3, name);
    UnqualifiedNameTakesDefault(typeCode, name);
  }

  /** The client id lies between the first opening and the last closing marker of a temporary
      name; without them in this order, and in other destinations, there is none. */
  lemma ClientIdSpelledOut(k: Kind, name: string, first: nat, last: nat)
    requires OccursAt(name, "{TD{", first) && forall j: nat :: j < first ==> !OccursAt(name, "{TD{", j)
    requires OccursAt(name, "}TD}", last) && forall j: nat :: last < j ==> !OccursAt(name, "}TD}", j)
    ensures GetClientId(Destination(k, name)) ==
            if (k == TemporaryTopic || k == TemporaryQueue) && first + 4 < last then name[first + 4..last] else ""
  {
    assert TEMP_PREFIX == "{TD{" && TEMP_POSTFIX == "}TD}";
  }

  lemma TemporaryNameSpelledOut(clientId: string)
    ensures CreateTemporaryName(clientId) == "{TD{" + clientId + "}TD}"
  {
  }
}
