/**
  The bounded, issuer-linked certificate path of an OCSP responder: a greedy search with a
  shrinking candidate list, a visited set and path-length constraints. Every path it returns is
  valid in the sense of section 6.1 of RFC 5280. The search never backtracks, so it can miss a
  valid path; it finds the path whenever the subject names determine the intermediates.
 */
module CertificatePath {
  import opened Common

  // ---------------------------------------------------------------- certificates

  datatype BasicConstraints = BasicConstraints(ca: bool, pathLength: Option<nat>)

  datatype Certificate = Certificate(
    serial: nat,
    subject: string,
    issuer: string,
    notBefore: int,
    notAfter: int,
    constraints: Option<BasicConstraints>,
    keyCertSign: Option<bool>)

  /** The cryptography: `signed(signer, cert)` says that the signer's key verifies the certificate. */
  datatype Crypto = Crypto(signed: (Certificate, Certificate) -> bool, fingerprint: Certificate -> string)

  datatype PathError =
    | Circular | NotYetValid | Expired | IssuerMismatch | BadSignature
    | LacksBasicConstraints | NotCa | LacksKeyCertSign
    | Incomplete | PathLengthExceeded | TooDeep

  /** No error, or the error the check raises. */
  type Check = Option<PathError>

  function EnsureCurrent(cert: Certificate, now: int): Check {
    if now < cert.notBefore then Some(NotYetValid)
    else if now >= cert.notAfter then Some(Expired)
    else None
  }

  function CertificateIsCa(cert: Certificate): Check {
    match cert.constraints
    case None => Some(LacksBasicConstraints)
    case Some(c) =>
      if !c.ca then Some(NotCa)
      else if cert.keyCertSign == Some(false) then Some(LacksKeyCertSign)
      else None
  }

  function SignedByPath(crypto: Crypto, cert: Certificate, signer: Certificate): Check {
    if cert.issuer != signer.subject then Some(IssuerMismatch)
    else if !crypto.signed(signer, cert) then Some(BadSignature)
    else None
  }

  // ---------------------------------------------------------------- the search

  /** The first candidate whose subject is the wanted issuer. */
  function FirstNamed(candidates: seq<Certificate>, subject: string): Option<Certificate> {
    if candidates == [] then None
    else if candidates[0].subject == subject then Some(candidates[0])
    else FirstNamed(candidates[1..], subject)
  }

  /** The list without the first occurrence of the certificate. */
  function RemoveFirst(candidates: seq<Certificate>, cert: Certificate): seq<Certificate> {
    if candidates == [] then []
    else if candidates[0] == cert then candidates[1..]
    else [candidates[0]] + RemoveFirst(candidates[1..], cert)
  }

  /** The named candidate is one of the list, and none is found only when no candidate has the name. */
  lemma {:induction false} FirstNamedExact(candidates: seq<Certificate>, subject: string)
    ensures match FirstNamed(candidates, subject)
            case Some(c) => c in candidates && c.subject == subject
            case None => forall c :: c in candidates ==> c.subject != subject
  {
    if candidates != [] { FirstNamedExact(candidates[1..], subject); }
  }

  /** Removal takes out nothing but one occurrence of the certificate. */
  lemma {:induction false} RemoveFirstExact(candidates: seq<Certificate>, cert: Certificate)
    requires cert in candidates
    ensures multiset(RemoveFirst(candidates, cert)) == multiset(candidates) - multiset{cert}
    ensures forall c :: c in RemoveFirst(candidates, cert) ==> c in candidates
    ensures forall c :: c in candidates && c != cert ==> c in RemoveFirst(candidates, cert)
  {
    assert candidates == [candidates[0]] + candidates[1..];
    if candidates[0] != cert {
      RemoveFirstExact(candidates[1..], cert);
      assert candidates[0] in candidates;
    }
  }

  /** The certificates of a path part whose subject is not the anchor's. */
  function CountBelow(part: seq<Certificate>, anchorSubject: string): nat {
    if part == [] then 0
    else CountBelow(part[..|part| - 1], anchorSubject) + if part[|part| - 1].subject != anchorSubject then 1 else 0
  }

  /** The checks on the certificate the path has reached. */
  function CheckCurrent(crypto: Crypto, current: Certificate, visited: set<string>, now: int): Check {
    if crypto.fingerprint(current) in visited then Some(Circular) else EnsureCurrent(current, now)
  }

  function CheckAnchored(crypto: Crypto, current: Certificate, anchor: Certificate): Check {
    var signed := SignedByPath(crypto, current, anchor);
    if signed.Some? then signed else CertificateIsCa(anchor)
  }

  /** The checks on a new intermediate; `path` already ends in it. */
  function CheckIntermediate(crypto: Crypto, anchor: Certificate, path: seq<Certificate>): Check
    requires |path| >= 2
  {
    var next, current := path[|path| - 1], path[|path| - 2];
    var signed := SignedByPath(crypto, current, next);
    if signed.Some? then signed
    else
      var ca := CertificateIsCa(next);
      if ca.Some? then ca
      else
        var below := CountBelow(path[1..|path| - 1], anchor.subject);
        if next.constraints.value.pathLength.Some? && below > next.constraints.value.pathLength.value
        then Some(PathLengthExceeded) else None
  }

  /** What one round does: it fails, ends at the anchor, or takes one more certificate. */
  datatype Round = Failed(error: PathError) | Done(found: seq<Certificate>)
                 | Grown(path: seq<Certificate>, remaining: seq<Certificate>, visited: set<string>)

  function OneRound(crypto: Crypto, anchor: Certificate, now: int, path: seq<Certificate>,
                    remaining: seq<Certificate>, visited: set<string>): (round: Round)
    requires path != []
    ensures round.Grown? ==> round.path != []
  {
    var current := path[|path| - 1];
    var check := CheckCurrent(crypto, current, visited, now);
    if check.Some? then Failed(check.value)
    else if current.issuer == anchor.subject then
      var anchored := CheckAnchored(crypto, current, anchor);
      if anchored.Some? then Failed(anchored.value) else Done(path + [anchor])
    else
      match FirstNamed(remaining, current.issuer)
      case None => Failed(Incomplete)
      case Some(next) =>
        var fits := CheckIntermediate(crypto, anchor, path + [next]);
        if fits.Some? then Failed(fits.value)
        else Grown(path + [next], RemoveFirst(remaining, next), visited + {crypto.fingerprint(current)})
  }

  /** The search from a partial path, with this many rounds left. */
  function Search(crypto: Crypto, anchor: Certificate, now: int, path: seq<Certificate>,
                  remaining: seq<Certificate>, visited: set<string>, rounds: nat): Result<seq<Certificate>, PathError>
    requires path != []
    decreases rounds, |remaining|
  {
    if rounds == 0 then Err(TooDeep)
    else
      match OneRound(crypto, anchor, now, path, remaining, visited)
      case Failed(e) => Err(e)
      case Done(found) => Ok(found)
      case Grown(longer, rest, seen) => Search(crypto, anchor, now, longer, rest, seen, rounds - 1)
  }

  const MAX_DEPTH := 8

  function Build(crypto: Crypto, leaf: Certificate, anchor: Certificate, intermediates: seq<Certificate>, now: int)
    : Result<seq<Certificate>, PathError>
  {
    Search(crypto, anchor, now, [leaf], intermediates, {}, MAX_DEPTH)
  }

  /** The loop that grows the path, shrinks the candidates and returns at the anchor. */
  method BuildAndValidate(crypto: Crypto, leaf: Certificate, anchor: Certificate, intermediates: seq<Certificate>,
                          now: int)
    returns (r: Result<seq<Certificate>, PathError>)
    ensures r == Build(crypto, leaf, anchor, intermediates, now)
    ensures forall p :: r == Ok(p) <==>
      ValidPath(crypto, leaf, anchor, intermediates, now, p) && NoNamesake(anchor, p) && FirstListed(intermediates, p)
  {
    forall p
      ensures Build(crypto, leaf, anchor, intermediates, now) == Ok(p) <==>
        ValidPath(crypto, leaf, anchor, intermediates, now, p) && NoNamesake(anchor, p) && FirstListed(intermediates, p)
    {
      BuildExact(crypto, leaf, anchor, intermediates, now, p);
    }
    var path, current, remaining, visited := [leaf], leaf, intermediates, {};
    for round := 0 to MAX_DEPTH
      invariant path != [] && current == path[|path| - 1]
      invariant Build(crypto, leaf, anchor, intermediates, now)
                == Search(crypto, anchor, now, path, remaining, visited, MAX_DEPTH - round)
    {
      var id := crypto.fingerprint(current);
      if id in visited {
        return Err(Circular);
      }
      var check := EnsureCurrent(current, now);
      if check.Some? {
        return Err(check.value);
      }
      if current.issuer == anchor.subject {
        check := CheckAnchored(crypto, current, anchor);
        if check.Some? {
          return Err(check.value);
        }
        path := path + [anchor];
        return Ok(path);
      }
      var next := FirstNamed(remaining, current.issuer);
      if next.None? {
        return Err(Incomplete);
      }
      path := path + [next.value];
      check := CheckIntermediate(crypto, anchor, path);
      if check.Some? {
        return Err(check.value);
      }
      visited := visited + {id};
      remaining := RemoveFirst(remaining, next.value);
      current := next.value;
    }
    return Err(TooDeep);
  }

  // ---------------------------------------------------------------- valid paths

  /** One link: named and signed by the next certificate, and current. */
  ghost predicate Link(crypto: Crypto, now: int, p: seq<Certificate>, i: nat)
    requires i + 1 < |p|
  {
    p[i].issuer == p[i + 1].subject && crypto.signed(p[i + 1], p[i]) && p[i].notBefore <= now < p[i].notAfter
  }

  /** A certificate authority allowed to sign certificates. */
  ghost predicate Authority(c: Certificate) {
    c.constraints.Some? && c.constraints.value.ca && c.keyCertSign != Some(false)
  }

  /** An intermediate at position `i`, with i - 1 intermediates below it. */
  ghost predicate Intermediate(intermediates: seq<Certificate>, p: seq<Certificate>, i: nat)
    requires 0 < i < |p|
  {
    && p[i] in intermediates && Authority(p[i])
    && (p[i].constraints.value.pathLength.Some? ==> i - 1 <= p[i].constraints.value.pathLength.value)
  }

  ghost predicate Linked(crypto: Crypto, now: int, p: seq<Certificate>, upTo: nat)
    requires upTo < |p|
  {
    forall i {:trigger Link(crypto, now, p, i)} :: 0 <= i < upTo ==> Link(crypto, now, p, i)
  }

  ghost predicate ThroughIntermediates(intermediates: seq<Certificate>, p: seq<Certificate>, upTo: nat)
    requires upTo <= |p|
  {
    forall i {:trigger Intermediate(intermediates, p, i)} :: 0 < i < upTo ==> Intermediate(intermediates, p, i)
  }

  ghost predicate DistinctPrints(crypto: Crypto, p: seq<Certificate>, upTo: nat)
    requires upTo <= |p|
  {
    forall i, j :: 0 <= i < j < upTo ==> crypto.fingerprint(p[i]) != crypto.fingerprint(p[j])
  }

  /** A path from the leaf to the anchor that section 6.1 of RFC 5280 accepts. */
  ghost predicate ValidPath(crypto: Crypto, leaf: Certificate, anchor: Certificate, intermediates: seq<Certificate>,
                            now: int, p: seq<Certificate>) {
    && 2 <= |p| <= MAX_DEPTH + 1
    && p[0] == leaf && p[|p| - 1] == anchor && Authority(anchor)
    && Linked(crypto, now, p, |p| - 1)
    && ThroughIntermediates(intermediates, p, |p| - 1)
    && DistinctPrints(crypto, p, |p| - 1)
  }

  /** No intermediate of the path carries the anchor's name, so none is left out of the path-length count. */
  ghost predicate NoNamesake(anchor: Certificate, p: seq<Certificate>) {
    forall i :: 0 < i < |p| - 1 ==> p[i].subject != anchor.subject
  }

  /** The candidates left when the search stands at position `t` of the path. */
  ghost function Left(intermediates: seq<Certificate>, p: seq<Certificate>, t: nat): seq<Certificate>
    requires t < |p|
  {
    if t == 0 then intermediates else RemoveFirst(Left(intermediates, p, t - 1), p[t])
  }

  /** The next certificate is the first candidate left that carries the wanted name. */
  ghost predicate Chosen(intermediates: seq<Certificate>, p: seq<Certificate>, t: nat)
    requires t + 1 < |p|
  {
    FirstNamed(Left(intermediates, p, t), p[t].issuer) == Some(p[t + 1])
  }

  /** Of the candidates with its name, every intermediate of the path is the first listed. */
  ghost predicate FirstListed(intermediates: seq<Certificate>, p: seq<Certificate>) {
    forall t {:trigger Chosen(intermediates, p, t)} :: 0 <= t < |p| - 2 ==> Chosen(intermediates, p, t)
  }

  /** A subject name belongs to one certificate of the list and never to the anchor. */
  ghost predicate NamesDetermine(anchor: Certificate, intermediates: seq<Certificate>) {
    forall c, d {:trigger Named(anchor, c, d)} :: c in intermediates && d in intermediates ==> Named(anchor, c, d)
  }

  ghost predicate Named(anchor: Certificate, c: Certificate, d: Certificate) {
    (c.subject == d.subject ==> c == d) && c.subject != anchor.subject
  }

  // ---------------------------------------------------------------- soundness

  lemma {:induction false} CountBelowAll(part: seq<Certificate>, anchorSubject: string)
    requires forall i :: 0 <= i < |part| ==> part[i].subject != anchorSubject
    ensures CountBelow(part, anchorSubject) == |part|
  {
    if part != [] { CountBelowAll(part[..|part| - 1], anchorSubject); }
  }

  /** What holds of a partial path and the sets kept with it. */
  ghost predicate Partial(crypto: Crypto, leaf: Certificate, anchor: Certificate, intermediates: seq<Certificate>,
                          now: int,
                          path: seq<Certificate>, remaining: seq<Certificate>, visited: set<string>) {
    && path != [] && path[0] == leaf
    && Linked(crypto, now, path, |path| - 1)
    && ThroughIntermediates(intermediates, path, |path|)
    && DistinctPrints(crypto, path, |path| - 1)
    && (forall i :: 0 <= i < |path| - 1 ==> crypto.fingerprint(path[i]) in visited)
    && (forall i :: 0 < i < |path| ==> path[i].subject != anchor.subject)
    && Within(remaining, intermediates)
  }

  lemma {:induction false} SearchSound(crypto: Crypto, leaf: Certificate, anchor: Certificate,
                                       intermediates: seq<Certificate>, now: int,
                                       path: seq<Certificate>, remaining: seq<Certificate>,
                                       visited: set<string>, rounds: nat, p: seq<Certificate>)
    requires Partial(crypto, leaf, anchor, intermediates, now, path, remaining, visited)
    requires |path| + rounds == MAX_DEPTH + 1
    requires Search(crypto, anchor, now, path, remaining, visited, rounds) == Ok(p)
    ensures ValidPath(crypto, leaf, anchor, intermediates, now, p) && NoNamesake(anchor, p)
    decreases rounds
  {
    RoundSound(crypto, leaf, anchor, intermediates, now, path, remaining, visited);
    match OneRound(crypto, anchor, now, path, remaining, visited)
    case Done(found) =>
    case Grown(longer, rest, seen) =>
      SearchSound(crypto, leaf, anchor, intermediates, now, longer, rest, seen, rounds - 1, p);
  }

  /** A round ends in a valid path or keeps the path partial. */
  lemma RoundSound(crypto: Crypto, leaf: Certificate, anchor: Certificate, intermediates: seq<Certificate>, now: int,
                   path: seq<Certificate>, remaining: seq<Certificate>, visited: set<string>)
    requires Partial(crypto, leaf, anchor, intermediates, now, path, remaining, visited)
    ensures match OneRound(crypto, anchor, now, path, remaining, visited)
            case Failed(_) => true
            case Done(p) =>
              |path| <= MAX_DEPTH ==> ValidPath(crypto, leaf, anchor, intermediates, now, p) && NoNamesake(anchor, p)
            case Grown(longer, rest, seen) =>
              |longer| == |path| + 1 && Partial(crypto, leaf, anchor, intermediates, now, longer, rest, seen)
  {
    match OneRound(crypto, anchor, now, path, remaining, visited)
    case Failed(_) =>
    case Done(p) =>
      if |path| <= MAX_DEPTH { Anchored(crypto, leaf, anchor, intermediates, now, path, remaining, visited); }
    case Grown(longer, rest, seen) =>
      FirstNamedExact(remaining, path[|path| - 1].issuer);
      Extended(crypto, leaf, anchor, intermediates, now, path, remaining, visited, longer[|longer| - 1]);
  }

  /** The anchor completes a partial path. */
  lemma Anchored(crypto: Crypto, leaf: Certificate, anchor: Certificate, intermediates: seq<Certificate>, now: int,
                 path: seq<Certificate>, remaining: seq<Certificate>, visited: set<string>)
    requires Partial(crypto, leaf, anchor, intermediates, now, path, remaining, visited)
    requires |path| <= MAX_DEPTH
    requires CheckCurrent(crypto, path[|path| - 1], visited, now).None?
    requires CheckAnchored(crypto, path[|path| - 1], anchor).None?
    ensures ValidPath(crypto, leaf, anchor, intermediates, now, path + [anchor]) && NoNamesake(anchor, path + [anchor])
  {
    var p := path + [anchor];
    forall i | 0 <= i < |p| - 1 ensures Link(crypto, now, p, i) {
      if i < |path| - 1 { assert Link(crypto, now, path, i); }
    }
    forall i | 0 < i < |p| - 1 ensures Intermediate(intermediates, p, i) {
      assert Intermediate(intermediates, path, i);
    }
  }

  /** An accepted intermediate extends a partial path. */
  lemma Extended(crypto: Crypto, leaf: Certificate, anchor: Certificate, intermediates: seq<Certificate>, now: int,
                 path: seq<Certificate>, remaining: seq<Certificate>, visited: set<string>, next: Certificate)
    requires Partial(crypto, leaf, anchor, intermediates, now, path, remaining, visited)
    requires CheckCurrent(crypto, path[|path| - 1], visited, now).None?
    requires path[|path| - 1].issuer != anchor.subject && next in remaining && next.subject == path[|path| - 1].issuer
    requires CheckIntermediate(crypto, anchor, path + [next]).None?
    ensures Partial(crypto, leaf, anchor, intermediates, now, path + [next], RemoveFirst(remaining, next),
                    visited + {crypto.fingerprint(path[|path| - 1])})
  {
    RemoveFirstExact(remaining, next);
    ExtendedLinks(crypto, now, path, next);
    ExtendedThrough(crypto, anchor, intermediates, path, next);
  }

  lemma ExtendedLinks(crypto: Crypto, now: int, path: seq<Certificate>, next: Certificate)
    requires path != [] && Linked(crypto, now, path, |path| - 1)
    requires EnsureCurrent(path[|path| - 1], now).None? && SignedByPath(crypto, path[|path| - 1], next).None?
    ensures Linked(crypto, now, path + [next], |path|)
  {
    var p := path + [next];
    forall i | 0 <= i < |path| ensures Link(crypto, now, p, i) {
      if i < |path| - 1 { assert Link(crypto, now, path, i); }
    }
  }

  /** The path-length count leaves out nobody, so it is the number of intermediates below. */
  lemma ExtendedThrough(crypto: Crypto, anchor: Certificate, intermediates: seq<Certificate>, path: seq<Certificate>,
                        next: Certificate)
    requires path != [] && ThroughIntermediates(intermediates, path, |path|) && next in intermediates
    requires forall i :: 0 < i < |path| ==> path[i].subject != anchor.subject
    requires CheckIntermediate(crypto, anchor, path + [next]).None?
    ensures ThroughIntermediates(intermediates, path + [next], |path| + 1)
  {
    var p := path + [next];
    assert p[1..|p| - 1] == path[1..];
    CountBelowAll(path[1..], anchor.subject);
    forall i | 0 < i < |p| ensures Intermediate(intermediates, p, i) {
      if i < |path| { assert Intermediate(intermediates, path, i); }
    }
  }

  /** Every path the builder returns is valid. */
  lemma BuildSound(crypto: Crypto, leaf: Certificate, anchor: Certificate, intermediates: seq<Certificate>, now: int)
    ensures var r := Build(crypto, leaf, anchor, intermediates, now);
            r.Ok? ==> ValidPath(crypto, leaf, anchor, intermediates, now, r.value) && NoNamesake(anchor, r.value)
  {
    var r := Build(crypto, leaf, anchor, intermediates, now);
    if r.Ok? {
      SearchSound(crypto, leaf, anchor, intermediates, now, [leaf], intermediates, {}, MAX_DEPTH, r.value);
    }
  }

  // ---------------------------------------------------------------- first choices

  lemma {:induction false} LeftPrefix(intermediates: seq<Certificate>, path: seq<Certificate>, c: Certificate, t: nat)
    requires t < |path|
    ensures Left(intermediates, path + [c], t) == Left(intermediates, path, t)
  {
    if t > 0 { LeftPrefix(intermediates, path, c, t - 1); }
  }

  /** All choices so far were first choices, and the candidates are what they left. */
  ghost predicate ChosenSoFar(intermediates: seq<Certificate>, path: seq<Certificate>, remaining: seq<Certificate>) {
    && path != [] && remaining == Left(intermediates, path, |path| - 1)
    && forall t {:trigger Chosen(intermediates, path, t)} :: 0 <= t < |path| - 1 ==> Chosen(intermediates, path, t)
  }

  /** One more certificate on the path keeps the earlier choices. */
  lemma ChoicesKept(intermediates: seq<Certificate>, path: seq<Certificate>, remaining: seq<Certificate>,
                    c: Certificate)
    requires ChosenSoFar(intermediates, path, remaining)
    ensures forall t {:trigger Chosen(intermediates, path + [c], t)} :: 0 <= t < |path| - 1 ==>
      Chosen(intermediates, path + [c], t)
    ensures Left(intermediates, path + [c], |path| - 1) == remaining
  {
    LeftPrefix(intermediates, path, c, |path| - 1);
    forall t | 0 <= t < |path| - 1 ensures Chosen(intermediates, path + [c], t) {
      assert Chosen(intermediates, path, t);
      LeftPrefix(intermediates, path, c, t);
    }
  }

  lemma RoundChooses(crypto: Crypto, anchor: Certificate, now: int, intermediates: seq<Certificate>,
                     path: seq<Certificate>, remaining: seq<Certificate>, visited: set<string>)
    requires ChosenSoFar(intermediates, path, remaining)
    ensures match OneRound(crypto, anchor, now, path, remaining, visited)
            case Failed(_) => true
            case Done(p) => FirstListed(intermediates, p)
            case Grown(longer, rest, seen) => ChosenSoFar(intermediates, longer, rest)
  {
    match OneRound(crypto, anchor, now, path, remaining, visited)
    case Failed(_) =>
    case Done(p) => ChoicesKept(intermediates, path, remaining, anchor);
    case Grown(longer, rest, seen) =>
      var next := longer[|longer| - 1];
      assert longer == path + [next];
      ChoicesKept(intermediates, path, remaining, next);
      forall t | 0 <= t < |longer| - 1 ensures Chosen(intermediates, longer, t) {
        assert t < |path| - 1 ==> Chosen(intermediates, path + [next], t);
      }
  }

  lemma {:induction false} SearchChooses(crypto: Crypto, anchor: Certificate, now: int, intermediates: seq<Certificate>,
                                         path: seq<Certificate>, remaining: seq<Certificate>,
                                         visited: set<string>, rounds: nat, p: seq<Certificate>)
    requires ChosenSoFar(intermediates, path, remaining)
    requires Search(crypto, anchor, now, path, remaining, visited, rounds) == Ok(p)
    ensures FirstListed(intermediates, p)
    decreases rounds
  {
    RoundChooses(crypto, anchor, now, intermediates, path, remaining, visited);
    match OneRound(crypto, anchor, now, path, remaining, visited)
    case Done(found) =>
    case Grown(longer, rest, seen) =>
      SearchChooses(crypto, anchor, now, intermediates, longer, rest, seen, rounds - 1, p);
  }

  // ---------------------------------------------------------------- completeness

  /** The search is at position `t` of the path it should find. */
  ghost predicate OnTrack(crypto: Crypto, intermediates: seq<Certificate>, p: seq<Certificate>, t: nat,
                          remaining: seq<Certificate>, visited: set<string>) {
    && t < |p| - 1 && remaining == Left(intermediates, p, t)
    && forall i :: t <= i < |p| - 1 ==> crypto.fingerprint(p[i]) !in visited
  }

  ghost predicate Within(remaining: seq<Certificate>, intermediates: seq<Certificate>) {
    forall c :: c in remaining ==> c in intermediates
  }

  /** The path is valid and made of first choices. */
  ghost predicate Findable(crypto: Crypto, leaf: Certificate, anchor: Certificate, intermediates: seq<Certificate>,
                           now: int, p: seq<Certificate>) {
    ValidPath(crypto, leaf, anchor, intermediates, now, p) && NoNamesake(anchor, p) && FirstListed(intermediates, p)
  }

  /** The search follows a path of first choices to its end. */
  lemma {:induction false} SearchComplete(crypto: Crypto, leaf: Certificate, anchor: Certificate,
                                          intermediates: seq<Certificate>, now: int,
                                          p: seq<Certificate>, t: nat, remaining: seq<Certificate>,
                                          visited: set<string>, rounds: nat)
    requires Findable(crypto, leaf, anchor, intermediates, now, p)
    requires OnTrack(crypto, intermediates, p, t, remaining, visited) && t + rounds == MAX_DEPTH
    ensures Search(crypto, anchor, now, p[..t + 1], remaining, visited, rounds) == Ok(p)
    decreases rounds
  {
    TrackRound(crypto, leaf, anchor, intermediates, now, p, t, remaining, visited);
    if t + 1 < |p| - 1 {
      SearchGrows(crypto, anchor, now, p[..t + 1], remaining, visited, rounds,
                  Grown(p[..t + 2], RemoveFirst(remaining, p[t + 1]), visited + {crypto.fingerprint(p[t])}));
      SearchComplete(crypto, leaf, anchor, intermediates, now, p, t + 1, RemoveFirst(remaining, p[t + 1]),
                     visited + {crypto.fingerprint(p[t])}, rounds - 1);
    }
  }

  /** A round that takes a certificate leaves the rest to the next round. */
  lemma SearchGrows(crypto: Crypto, anchor: Certificate, now: int, path: seq<Certificate>, remaining: seq<Certificate>,
                    visited: set<string>, rounds: nat, round: Round)
    requires path != [] && rounds > 0
    requires OneRound(crypto, anchor, now, path, remaining, visited) == round && round.Grown?
    ensures Search(crypto, anchor, now, path, remaining, visited, rounds)
            == Search(crypto, anchor, now, round.path, round.remaining, round.visited, rounds - 1)
  {
  }

  /** A round on track reaches the end of the path or its next certificate. */
  lemma TrackRound(crypto: Crypto, leaf: Certificate, anchor: Certificate, intermediates: seq<Certificate>, now: int,
                   p: seq<Certificate>, t: nat, remaining: seq<Certificate>, visited: set<string>)
    requires Findable(crypto, leaf, anchor, intermediates, now, p)
    requires OnTrack(crypto, intermediates, p, t, remaining, visited)
    ensures OneRound(crypto, anchor, now, p[..t + 1], remaining, visited)
            == if t + 1 == |p| - 1 then Done(p)
               else Grown(p[..t + 2], RemoveFirst(remaining, p[t + 1]), visited + {crypto.fingerprint(p[t])})
  {
    var path := p[..t + 1];
    assert path[|path| - 1] == p[t];
    assert Link(crypto, now, p, t);
    assert p[..t + 2] == path + [p[t + 1]];
    if t + 1 == |p| - 1 {
      assert path + [anchor] == p;
    } else {
      assert Chosen(intermediates, p, t);
      StepFits(crypto, leaf, anchor, intermediates, now, p, t);
    }
  }

  /** The next certificate of the path passes the checks on an intermediate. */
  lemma StepFits(crypto: Crypto, leaf: Certificate, anchor: Certificate, intermediates: seq<Certificate>, now: int,
                 p: seq<Certificate>, t: nat)
    requires ValidPath(crypto, leaf, anchor, intermediates, now, p) && NoNamesake(anchor, p) && t + 2 < |p|
    ensures p[t].issuer != anchor.subject
    ensures CheckIntermediate(crypto, anchor, p[..t + 1] + [p[t + 1]]).None?
  {
    assert Link(crypto, now, p, t);
    assert Intermediate(intermediates, p, t + 1);
    var longer := p[..t + 1] + [p[t + 1]];
    var part := longer[1..|longer| - 1];
    assert forall i :: 0 <= i < |part| ==> part[i] == p[i + 1];
    CountBelowAll(part, anchor.subject);
  }

  /** The builder returns a path exactly when it is valid, free of the anchor's name and made of first choices. */
  lemma BuildExact(crypto: Crypto, leaf: Certificate, anchor: Certificate, intermediates: seq<Certificate>, now: int,
                   p: seq<Certificate>)
    ensures Build(crypto, leaf, anchor, intermediates, now) == Ok(p) <==>
            ValidPath(crypto, leaf, anchor, intermediates, now, p) && NoNamesake(anchor, p)
              && FirstListed(intermediates, p)
  {
    if Build(crypto, leaf, anchor, intermediates, now) == Ok(p) {
      BuildSound(crypto, leaf, anchor, intermediates, now);
      SearchChooses(crypto, anchor, now, intermediates, [leaf], intermediates, {}, MAX_DEPTH, p);
    }
    if Findable(crypto, leaf, anchor, intermediates, now, p) {
      assert p[..1] == [leaf];
      SearchComplete(crypto, leaf, anchor, intermediates, now, p, 0, intermediates, {}, MAX_DEPTH);
    }
  }

  // ---------------------------------------------------------------- distinct names

  /** What lies ahead on the path is still a candidate. */
  lemma {:induction false} StillLeft(crypto: Crypto, intermediates: seq<Certificate>, p: seq<Certificate>, t: nat)
    requires t < |p| - 1 && ThroughIntermediates(intermediates, p, |p| - 1) && DistinctPrints(crypto, p, |p| - 1)
    ensures Within(Left(intermediates, p, t), intermediates)
    ensures forall i :: t < i < |p| - 1 ==> p[i] in Left(intermediates, p, t)
  {
    if t == 0 {
      forall i | 0 < i < |p| - 1 ensures p[i] in intermediates { assert Intermediate(intermediates, p, i); }
    } else {
      StillLeft(crypto, intermediates, p, t - 1);
      RemoveFirstExact(Left(intermediates, p, t - 1), p[t]);
      forall i | t < i < |p| - 1 ensures p[i] in Left(intermediates, p, t) {
        assert p[i] in Left(intermediates, p, t - 1) && crypto.fingerprint(p[t]) != crypto.fingerprint(p[i]);
      }
    }
  }

  /** With determining names the builder finds every valid path, so at most one exists. */
  lemma BuildComplete(crypto: Crypto, leaf: Certificate, anchor: Certificate, intermediates: seq<Certificate>,
                      now: int, p: seq<Certificate>)
    requires NamesDetermine(anchor, intermediates) && ValidPath(crypto, leaf, anchor, intermediates, now, p)
    ensures Build(crypto, leaf, anchor, intermediates, now) == Ok(p)
  {
    forall i | 0 < i < |p| - 1 ensures p[i].subject != anchor.subject {
      assert Intermediate(intermediates, p, i);
      assert Named(anchor, p[i], p[i]);
    }
    forall t | 0 <= t < |p| - 2 ensures Chosen(intermediates, p, t) {
      StillLeft(crypto, intermediates, p, t);
      assert Link(crypto, now, p, t);
      FirstNamedExact(Left(intermediates, p, t), p[t].issuer);
      assert Named(anchor, FirstNamed(Left(intermediates, p, t), p[t].issuer).value, p[t + 1]);
    }
    BuildExact(crypto, leaf, anchor, intermediates, now, p);
  }

  /**
    Without determining names the greedy choice can miss a valid path: the first of two
    certificates named "I" did not sign the leaf, the second did.
   */
  lemma GreedyMissesPath()
    ensures var ca := Some(BasicConstraints(true, None));
            var leaf := Certificate(1, "leaf", "I", 0, 10, None, None);
            var wrong := Certificate(2, "I", "root", 0, 10, ca, None);
            var right := Certificate(3, "I", "root", 0, 10, ca, None);
            var anchor := Certificate(4, "root", "root", 0, 10, ca, None);
            var crypto := Crypto((signer: Certificate, c: Certificate) => signer.serial != 2,
                                 (c: Certificate) => Print(c.serial));
            && ValidPath(crypto, leaf, anchor, [wrong, right], 5, [leaf, right, anchor])
            && Build(crypto, leaf, anchor, [wrong, right], 5) == Err(BadSignature)
  {
    var ca := Some(BasicConstraints(true, None));
    var leaf := Certificate(1, "leaf", "I", 0, 10, None, None);
    var wrong := Certificate(2, "I", "root", 0, 10, ca, None);
    var right := Certificate(3, "I", "root", 0, 10, ca, None);
    var anchor := Certificate(4, "root", "root", 0, 10, ca, None);
    var crypto := Crypto((signer: Certificate, c: Certificate) => signer.serial != 2,
      (c: Certificate) => Print(c.serial));
    var p := [leaf, right, anchor];
    assert Link(crypto, 5, p, 0) && Link(crypto, 5, p, 1) && Intermediate([wrong, right], p, 1);
    assert CheckIntermediate(crypto, anchor, [leaf] + [wrong]) == Some(BadSignature);
  }

  /** A fingerprint that tells serial numbers apart. */
  function Print(serial: nat): (s: string)
    ensures |s| == serial
  {
    seq(serial, i => 'x')
  }
}
