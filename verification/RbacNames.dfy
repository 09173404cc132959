/** Names of the cluster-scoped RBAC objects and of the cross-namespace RoleBindings.

    A name carries the Dashboard's namespace and name. Both may contain hyphens, so
    the namespace is preceded by its length; a name that would be too long for
    Kubernetes is cut and ends in a digest instead. */
module RbacNames {
  import opened Ordering
  import opened Text

  const MAX_LENGTH := 253

  /** Hex digits of the digest kept in a truncated name. */
  const DIGEST_LENGTH := 16

  datatype Kind = Metrics | Discovery | Monitor

  datatype Identity = Identity(namespace: string, name: string)

  /** SHA-256 shortened to its first 8 bytes, in hex; nothing else is known about it. */
  ghost predicate IsDigest(digest: string -> string) {
    forall x :: |digest(x)| == DIGEST_LENGTH
  }

  function Prefix(kind: Kind): string {
    match kind
    case Metrics => "kubepage-"
    case Discovery => "kubepage-disc-"
    case Monitor => "kubepage-mon-"
  }

  function Salt(kind: Kind): string {
    match kind
    case Metrics => ""
    case Discovery => "disc/"
    case Monitor => "mon/"
  }

  /** The length-prefixed encoding, before any truncation. */
  function Full(kind: Kind, id: Identity): string {
    Prefix(kind) + (Decimal(|id.namespace|) + ("-" + (id.namespace + ("-" + id.name))))
  }

  function DigestInput(kind: Kind, id: Identity): string {
    Salt(kind) + (id.namespace + ("/" + id.name))
  }

  /** `clusterRBACName`, `discoveryRBACName` and `monitorRBACName`. */
  function RbacName(kind: Kind, id: Identity, digest: string -> string): string
    requires IsDigest(digest)
  {
    var full := Full(kind, id);
    if |full| <= MAX_LENGTH then full
    else
      var suffix := "-" + digest(DigestInput(kind, id));
      full[..MAX_LENGTH - |suffix|] + suffix
  }

  // ---------------------------------------------------------------- decoding

  function DigitsEnd(s: string): (n: nat)
    ensures n <= |s|
    ensures forall i :: 0 <= i < n ==> '0' <= s[i] <= '9'
    ensures n < |s| ==> !('0' <= s[n] <= '9')
  {
    if s != [] && '0' <= s[0] <= '9' then 1 + DigitsEnd(s[1..]) else 0
  }

  /** Reads `<length>-<namespace>-<name>`. */
  function DecodeIdentity(s: string): Option<Identity> {
    var end := DigitsEnd(s);
    var size := Value(s[..end]);
    var rest := s[end..];
    if |rest| < size + 2 || rest[0] != '-' || rest[size + 1] != '-' then None
    else Some(Identity(rest[1..size + 1], rest[size + 2..]))
  }

  function Decode(s: string): Option<(Kind, Identity)> {
    var kind := if Prefix(Discovery) <= s then Discovery else if Prefix(Monitor) <= s then Monitor else Metrics;
    if !(Prefix(kind) <= s) then None
    else
      match DecodeIdentity(s[|Prefix(kind)|..])
      case None => None
      case Some(id) => Some((kind, id))
  }

  lemma {:induction false} DigitsEndAt(digits: string, rest: string)
    requires forall i :: 0 <= i < |digits| ==> '0' <= digits[i] <= '9'
    requires rest != [] && rest[0] == '-'
    ensures DigitsEnd(digits + rest) == |digits|
  {
    if digits == [] {
      assert digits + rest == rest;
    } else {
      assert (digits + rest)[1..] == digits[1..] + rest;
      DigitsEndAt(digits[1..], rest);
    }
  }

  /** A name's tenth character tells its family. */
  lemma KindIsReadOff(kind: Kind, body: string)
    requires body != [] && '0' <= body[0] <= '9'
    ensures var s := Prefix(kind) + body;
            && s[9] == (match kind case Metrics => body[0] case Discovery => 'd' case Monitor => 'm')
            && (Prefix(Discovery) <= s <==> kind == Discovery)
            && (Prefix(Monitor) <= s <==> kind == Monitor)
  {
    var s := Prefix(kind) + body;
    assert Prefix(Discovery)[9] == 'd' && Prefix(Monitor)[9] == 'm';
    assert Prefix(Discovery) <= s ==> s[9] == 'd';
    assert Prefix(Monitor) <= s ==> s[9] == 'm';
  }

  lemma IdentityDecodes(id: Identity)
    ensures DecodeIdentity(Decimal(|id.namespace|) + ("-" + (id.namespace + ("-" + id.name)))) == Some(id)
  {
    var digits := Decimal(|id.namespace|);
    var rest := "-" + (id.namespace + ("-" + id.name));
    var body := digits + rest;
    DigitsEndAt(digits, rest);
    DecimalValue(|id.namespace|);
    assert body[..|digits|] == digits && body[|digits|..] == rest;
    assert rest[1..|id.namespace| + 1] == id.namespace;
    assert rest[|id.namespace| + 2..] == id.name;
  }

  /** Before truncation the encoding loses nothing: it decodes to the family and
      the identity it was made from. */
  lemma FullDecodes(kind: Kind, id: Identity)
    ensures Decode(Full(kind, id)) == Some((kind, id))
  {
    hide DecodeIdentity;
    var body := Decimal(|id.namespace|) + ("-" + (id.namespace + ("-" + id.name)));
    IdentityDecodes(id);
    KindIsReadOff(kind, body);
    PrefixIsCut(Prefix(kind), body);
  }

  lemma PrefixIsCut(prefix: string, body: string)
    ensures prefix <= prefix + body
    ensures (prefix + body)[|prefix|..] == body
  {
  }

  // ------------------------------------------------------------- the results

  /** Every name is short enough, and one that was not cut decodes to its Dashboard. */
  lemma NamesFitAndDecode(kind: Kind, id: Identity, digest: string -> string)
    requires IsDigest(digest)
    ensures |RbacName(kind, id, digest)| <= 253
    ensures |Full(kind, id)| <= MAX_LENGTH ==> Decode(RbacName(kind, id, digest)) == Some((kind, id))
  {
    FullDecodes(kind, id);
  }

  lemma NameKeepsTenth(kind: Kind, id: Identity, digest: string -> string)
    requires IsDigest(digest)
    ensures |RbacName(kind, id, digest)| >= 10
    ensures RbacName(kind, id, digest)[9] == Full(kind, id)[9]
  {
    var full := Full(kind, id);
    assert |full| >= 10;
    if |full| > MAX_LENGTH {
      assert RbacName(kind, id, digest)[9] == full[..MAX_LENGTH - 17][9];
    }
  }

  /** The three families never share a name, not even across Dashboards, and not
      even when names were cut. */
  lemma FamiliesNeverShareAName(kind: Kind, id: Identity, kind': Kind, id': Identity, digest: string -> string)
    requires IsDigest(digest) && kind != kind'
    ensures RbacName(kind, id, digest) != RbacName(kind', id', digest)
  {
    NameKeepsTenth(kind, id, digest);
    NameKeepsTenth(kind', id', digest);
    KindIsReadOff(kind, Full(kind, id)[|Prefix(kind)|..]);
    KindIsReadOff(kind', Full(kind', id')[|Prefix(kind')|..]);
    assert Full(kind, id) == Prefix(kind) + Full(kind, id)[|Prefix(kind)|..];
    assert Full(kind', id') == Prefix(kind') + Full(kind', id')[|Prefix(kind')|..];
  }

  /** Within a family, two Dashboards can only clash through truncation: both names
      whole means one Dashboard, and both cut means the digests collide. */
  lemma ClashNeedsTruncation(kind: Kind, id: Identity, id': Identity, digest: string -> string)
    requires IsDigest(digest)
    requires RbacName(kind, id, digest) == RbacName(kind, id', digest)
    ensures |Full(kind, id)| <= MAX_LENGTH && |Full(kind, id')| <= MAX_LENGTH ==> id == id'
    ensures |Full(kind, id)| > MAX_LENGTH && |Full(kind, id')| > MAX_LENGTH ==>
              digest(DigestInput(kind, id)) == digest(DigestInput(kind, id'))
  {
    hide Full, Decode;
    FullDecodes(kind, id);
    FullDecodes(kind, id');
    if |Full(kind, id)| > MAX_LENGTH && |Full(kind, id')| > MAX_LENGTH {
      var name := RbacName(kind, id, digest);
      assert name[MAX_LENGTH - DIGEST_LENGTH..] == digest(DigestInput(kind, id));
      assert RbacName(kind, id', digest)[MAX_LENGTH - DIGEST_LENGTH..] == digest(DigestInput(kind, id'));
    }
  }

  /** What is digested tells two Dashboards apart, since a namespace has no slash. */
  lemma DigestInputSeparates(kind: Kind, id: Identity, id': Identity)
    requires '/' !in id.namespace && '/' !in id'.namespace
    requires DigestInput(kind, id) == DigestInput(kind, id')
    ensures id == id'
  {
    var a, b := id.namespace + ['/'] + id.name, id'.namespace + ['/'] + id'.name;
    assert a == DigestInput(kind, id)[|Salt(kind)|..] && b == DigestInput(kind, id')[|Salt(kind)|..];
    CutUndoesGlue(id.namespace, id.name, '/');
    CutUndoesGlue(id'.namespace, id'.name, '/');
  }

  /** Everything before the Dashboard's own name. */
  function Head(kind: Kind, namespace: string): string {
    Prefix(kind) + (Decimal(|namespace|) + ("-" + (namespace + "-")))
  }

  lemma FullIsHeadAndName(kind: Kind, id: Identity)
    ensures Full(kind, id) == Head(kind, id.namespace) + id.name
  {
    var p, d, n, m := Prefix(kind), Decimal(|id.namespace|), id.namespace, id.name;
    assert (n + "-") + m == n + ("-" + m);
    assert ("-" + (n + "-")) + m == "-" + (n + ("-" + m));
    assert (d + ("-" + (n + "-"))) + m == d + ("-" + (n + ("-" + m)));
  }

  /** The digest separates cut names from each other, not from whole ones: a name
      that was cut after its namespace is also the whole name of another Dashboard. */
  lemma CutNameIsAnothersWholeName(kind: Kind, id: Identity, digest: string -> string) returns (other: Identity)
    requires IsDigest(digest)
    requires |Full(kind, id)| > MAX_LENGTH
    requires |Head(kind, id.namespace)| <= MAX_LENGTH - DIGEST_LENGTH - 1
    ensures other != id && other.namespace == id.namespace
    ensures |Full(kind, other)| == MAX_LENGTH
    ensures RbacName(kind, other, digest) == RbacName(kind, id, digest)
  {
    hide Full, Head;
    var head, kept := Head(kind, id.namespace), MAX_LENGTH - DIGEST_LENGTH - 1;
    var name := RbacName(kind, id, digest);
    FullIsHeadAndName(kind, id);
    assert name[..|head|] == Full(kind, id)[..|head|] == head;
    other := Identity(id.namespace, name[|head|..]);
    FullIsHeadAndName(kind, other);
    assert name == name[..|head|] + name[|head|..];
  }

  /** The part of a full name that survives the cut. */
  function Kept(kind: Kind, id: Identity): string
    requires |Full(kind, id)| > MAX_LENGTH
  {
    Full(kind, id)[..MAX_LENGTH - DIGEST_LENGTH - 1]
  }

  predicate IsCut(kind: Kind, id: Identity) {
    |Full(kind, id)| > MAX_LENGTH
  }

  /** A namespace is a DNS label of at most 63 characters, so the cut never reaches it. */
  lemma {:induction false} HeadFits(kind: Kind, namespace: string)
    requires |namespace| <= 63
    ensures |Head(kind, namespace)| <= MAX_LENGTH - DIGEST_LENGTH - 1
  {
    assert |Decimal(|namespace|)| <= 2 by {
      if |namespace| >= 10 {
        assert Decimal(|namespace|) == Decimal(|namespace| / 10) + [Digit(|namespace| % 10)];
      }
    }
  }

  lemma CutNameParts(kind: Kind, id: Identity, digest: string -> string)
    requires IsDigest(digest) && IsCut(kind, id)
    ensures
      var name, at := RbacName(kind, id, digest), MAX_LENGTH - DIGEST_LENGTH - 1;
      && |name| == MAX_LENGTH
      && name[..at] == Kept(kind, id) && name[at] == '-' && name[at + 1..] == digest(DigestInput(kind, id))
  {
    hide Full;
  }

  /** Two cut names are equal exactly when what is kept and the digests are. */
  lemma CutNamesClash(kind: Kind, id: Identity, id': Identity, digest: string -> string)
    requires IsDigest(digest) && IsCut(kind, id) && IsCut(kind, id')
    ensures RbacName(kind, id, digest) == RbacName(kind, id', digest) <==>
      Kept(kind, id) == Kept(kind, id') && digest(DigestInput(kind, id)) == digest(DigestInput(kind, id'))
  {
    hide Full;
    CutNameParts(kind, id, digest);
    CutNameParts(kind, id', digest);
  }

  /** The Dashboard whose whole name a name cut behind its namespace is. */
  function Namesake(kind: Kind, id: Identity, digest: string -> string): Identity
    requires IsDigest(digest) && IsCut(kind, id)
    requires |Head(kind, id.namespace)| <= MAX_LENGTH - DIGEST_LENGTH - 1
  {
    Identity(id.namespace, RbacName(kind, id, digest)[|Head(kind, id.namespace)|..])
  }

  /** A cut name and a whole one are equal exactly for that one Dashboard. */
  lemma CutAndWholeClash(kind: Kind, id: Identity, id': Identity, digest: string -> string)
    requires IsDigest(digest) && IsCut(kind, id) && !IsCut(kind, id')
    requires |Head(kind, id.namespace)| <= MAX_LENGTH - DIGEST_LENGTH - 1
    ensures RbacName(kind, id, digest) == RbacName(kind, id', digest) <==> id' == Namesake(kind, id, digest)
  {
    hide Full, Head, Decode;
    var other := CutNameIsAnothersWholeName(kind, id, digest);
    FullDecodes(kind, other);
    FullDecodes(kind, id');
    NamesakeIs(kind, id, other, digest);
  }

  lemma NamesakeIs(kind: Kind, id: Identity, other: Identity, digest: string -> string)
    requires IsDigest(digest) && IsCut(kind, id)
    requires |Head(kind, id.namespace)| <= MAX_LENGTH - DIGEST_LENGTH - 1
    requires other.namespace == id.namespace && |Full(kind, other)| == MAX_LENGTH
    requires RbacName(kind, other, digest) == RbacName(kind, id, digest)
    ensures other == Namesake(kind, id, digest)
  {
    hide Full, Head;
    FullIsHeadAndName(kind, other);
  }

  /** When two Dashboards share a name: exactly if one is the namesake of the other, or
      both names are cut, keep the same, and have the same digest. */
  lemma NamesClashIff(kind: Kind, id: Identity, id': Identity, digest: string -> string)
    requires IsDigest(digest) && |id.namespace| <= 63 && |id'.namespace| <= 63
    ensures |Head(kind, id.namespace)| <= MAX_LENGTH - DIGEST_LENGTH - 1
    ensures |Head(kind, id'.namespace)| <= MAX_LENGTH - DIGEST_LENGTH - 1
    ensures RbacName(kind, id, digest) == RbacName(kind, id', digest) <==>
      || id == id'
      || (IsCut(kind, id) && !IsCut(kind, id') && id' == Namesake(kind, id, digest))
      || (IsCut(kind, id') && !IsCut(kind, id) && id == Namesake(kind, id', digest))
      || (IsCut(kind, id) && IsCut(kind, id') && Kept(kind, id) == Kept(kind, id')
          && digest(DigestInput(kind, id)) == digest(DigestInput(kind, id')))
  {
    HeadFits(kind, id.namespace);
    HeadFits(kind, id'.namespace);
    hide Full, Head, RbacName, Kept, Namesake;
    if IsCut(kind, id) && IsCut(kind, id') {
      CutNamesClash(kind, id, id', digest);
    } else if IsCut(kind, id) {
      CutAndWholeClash(kind, id, id', digest);
    } else if IsCut(kind, id') {
      CutAndWholeClash(kind, id', id, digest);
    } else if RbacName(kind, id, digest) == RbacName(kind, id', digest) {
      ClashNeedsTruncation(kind, id, id', digest);
    }
  }

  /** So a Dashboard whose full names are shorter than the limit shares them with nobody. */
  lemma ShortNamesNeverClash(kind: Kind, id: Identity, id': Identity, digest: string -> string)
    requires IsDigest(digest) && |Full(kind, id)| < MAX_LENGTH && id != id'
    ensures RbacName(kind, id, digest) != RbacName(kind, id', digest)
  {
    if |Full(kind, id')| > MAX_LENGTH {
      CutNameParts(kind, id', digest);
    } else if RbacName(kind, id, digest) == RbacName(kind, id', digest) {
      ClashNeedsTruncation(kind, id, id', digest);
    }
  }

  /** For instance: a name of 240 characters in namespace "team" is cut, and a name of 237
      there is its namesake. */
  lemma ClashWitness(digest: string -> string) returns (long: Identity, other: Identity)
    requires IsDigest(digest)
    ensures long == Identity("team", seq(240, _ => 'x')) && other.namespace == "team" && |other.name| == 237
    ensures long != other && RbacName(Metrics, long, digest) == RbacName(Metrics, other, digest)
  {
    long := Identity("team", seq(240, _ => 'x'));
    assert Decimal(4) == "4";
    assert |Head(Metrics, "team")| == 16;
    FullIsHeadAndName(Metrics, long);
    other := CutNameIsAnothersWholeName(Metrics, long, digest);
    FullIsHeadAndName(Metrics, other);
  }

  /** What the three names of a Dashboard look like, and where a long one is cut. */
  lemma NamesRead(kind: Kind, id: Identity, digest: string -> string)
    requires IsDigest(digest)
    ensures RbacName(Metrics, Identity("team", "home"), digest) == "kubepage-4-team-home"
    ensures RbacName(Discovery, Identity("team", "home"), digest) == "kubepage-disc-4-team-home"
    ensures RbacName(Monitor, Identity("team", "home"), digest) == "kubepage-mon-4-team-home"
    ensures |Full(kind, id)| > 253 ==>
      var name := RbacName(kind, id, digest);
      |name| == 253 && name[..236] == Full(kind, id)[..236] && name[236] == '-'
  {
    assert Decimal(4) == "4";
  }
}
