// A federated call and its answer: for every addressed (role, party) a return
// code, grouped by role.
module Federated {
  import opened Common

  datatype Party = Party(role: string, id: string)

  datatype ReturnCode = Ok | ResourceLimitExceeded | Refusal(code: int)

  /** role -> party id -> return code. */
  type Response = map<string, map<string, ReturnCode>>

  predicate Answered(r: Response, p: Party) {
    p.role in r && p.id in r[p.role]
  }

  function CodeOf(r: Response, p: Party): ReturnCode
    requires Answered(r, p)
  {
    r[p.role][p.id]
  }

  function AnsweredParties(r: Response): set<Party> {
    set role, id | role in r && id in r[role] :: Party(role, id)
  }

  /** The call succeeded: somebody answered, and everybody who answered said Ok. */
  predicate AllOk(r: Response) {
    AnsweredParties(r) != {} && forall p :: p in AnsweredParties(r) ==> CodeOf(r, p) == Ok
  }

  predicate Accepts(r: Response, p: Party) {
    Answered(r, p) && CodeOf(r, p) == Ok
  }

  /** A call to known parties: each has an answer, if only that it could not be reached. */
  lemma AllOkIff(r: Response, addressed: set<Party>)
    requires AnsweredParties(r) == addressed
    ensures AllOk(r) <==> addressed != {} && forall p :: p in addressed ==> Accepts(r, p)
  {
    forall p | p in addressed ensures Answered(r, p) {
    }
  }

  function Roles(parties: set<Party>): set<string> {
    set p | p in parties :: p.role
  }

  function Ids(parties: set<Party>, role: string): set<string> {
    set p | p in parties && p.role == role :: p.id
  }

  /** The response in which each party gives its code. */
  function ResponseOf(codes: map<Party, ReturnCode>): Response {
    map role | role in Roles(codes.Keys) ::
      map id | id in Ids(codes.Keys, role) && Party(role, id) in codes :: codes[Party(role, id)]
  }

  lemma ResponseOfIs(codes: map<Party, ReturnCode>)
    ensures AnsweredParties(ResponseOf(codes)) == codes.Keys
    ensures forall p :: p in codes ==> Answered(ResponseOf(codes), p) && CodeOf(ResponseOf(codes), p) == codes[p]
  {
    var r := ResponseOf(codes);
    forall p | p in codes ensures Answered(r, p) && CodeOf(r, p) == codes[p] {
      assert p.role in Roles(codes.Keys) && p.id in Ids(codes.Keys, p.role);
      assert Party(p.role, p.id) == p;
    }
    forall p | p in AnsweredParties(r) ensures p in codes {
      assert p.id in Ids(codes.Keys, p.role);
    }
  }

  /** The codes of one role, as the inner loop meets them. */
  method RoleCodes(codes: map<string, ReturnCode>) returns (found: set<ReturnCode>)
    ensures found == set id | id in codes :: codes[id]
  {
    found := {};
    var rest := codes.Keys;
    while rest != {}
      invariant rest <= codes.Keys
      invariant found == set id | id in codes.Keys - rest :: codes[id]
    {
      var id :| id in rest;
      found := found + {codes[id]};
      assert codes.Keys - (rest - {id}) == (codes.Keys - rest) + {id};
      rest := rest - {id};
    }
  }

  /** The collected codes are those of the parties that answered. */
  lemma CodesFound(r: Response, codes: set<ReturnCode>)
    requires codes == set role, id | role in r && id in r[role] :: r[role][id]
    ensures forall p :: p in AnsweredParties(r) ==> CodeOf(r, p) in codes
    ensures forall c :: c in codes ==> exists p :: p in AnsweredParties(r) && CodeOf(r, p) == c
  {
    forall c | c in codes ensures exists p :: p in AnsweredParties(r) && CodeOf(r, p) == c {
      var role, id :| role in r && id in r[role] && r[role][id] == c;
      assert Party(role, id) in AnsweredParties(r);
    }
  }

  method ReturnFederatedResponse(r: Response) returns (success: bool)
    ensures success <==> AllOk(r)
  {
    var retcodes: set<ReturnCode> := {};
    var rest := r.Keys;
    while rest != {}
      invariant rest <= r.Keys
      invariant retcodes == set role, id | role in r.Keys - rest && id in r[role] :: r[role][id]
    {
      var role :| role in rest;
      var found := RoleCodes(r[role]);
      retcodes := retcodes + found;
      assert r.Keys - (rest - {role}) == (r.Keys - rest) + {role};
      rest := rest - {role};
    }
    CodesFound(r, retcodes);
    if AllOk(r) {
      var p :| p in AnsweredParties(r);
      assert CodeOf(r, p) in retcodes;
      assert retcodes == {Ok};
    }
    success := |retcodes| == 1 && Ok in retcodes;
    if success {
      SingletonOf(retcodes, Ok);
    }
  }
}
