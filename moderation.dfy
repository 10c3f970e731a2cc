/**
 * The moderation workflow of app.py: masters submit street, pavilion and listing
 * requests; an administrator approves or rejects each one once. Approving a street
 * request creates the street and its first pavilion, approving a pavilion request
 * creates the pavilion and its first listing, and approving a listing request
 * publishes the listing.
 */
module Moderation {
  import opened Wrappers
  import opened Text
  import opened Models
  import opened Validators

  datatype StreetRequest = StreetRequest(
    userId: int, streetName: string, streetCode: string,
    pavilionTitle: string, pavilionDesc: string,
    status: Status, streetId: Option<int>)

  datatype PavilionRequest = PavilionRequest(
    userId: int, streetId: int, title: string,
    pavilionTitle: string, pavilionDesc: string,
    adTitle: string, adText: string,
    status: Status)

  datatype AdRequest = AdRequest(userId: int, pavilionId: int, title: string, text: string, status: Status)

  /** The next primary key of each table. */
  datatype NextIds = NextIds(street: int, pavilion: int, ad: int, streetRequest: int, pavilionRequest: int, adRequest: int)

  /** The tables the workflow reads and writes. */
  datatype Db = Db(
    users: map<int, User>,
    streets: map<int, Street>,
    pavilions: map<int, Pavilion>,
    ads: map<int, Ad>,
    streetRequests: map<int, StreetRequest>,
    pavilionRequests: map<int, PavilionRequest>,
    adRequests: map<int, AdRequest>,
    ids: NextIds)
  {
    /** Keys are below their table's next id. */
    ghost predicate FreshIds()
    {
      && (forall k :: k in streets ==> k < ids.street)
      && (forall k :: k in pavilions ==> k < ids.pavilion)
      && (forall k :: k in ads ==> k < ids.ad)
      && (forall k :: k in streetRequests ==> k < ids.streetRequest)
      && (forall k :: k in pavilionRequests ==> k < ids.pavilionRequest)
      && (forall k :: k in adRequests ==> k < ids.adRequest)
    }

    /** Foreign keys name existing rows; the requests' authors are accounts. */
    ghost predicate References()
    {
      && (forall k :: k in pavilions ==> pavilions[k].streetId in streets)
      && (forall k :: k in ads ==> ads[k].pavilionId in pavilions)
      && (forall k :: k in streetRequests ==> streetRequests[k].userId in users)
      && (forall k :: k in pavilionRequests ==>
            pavilionRequests[k].userId in users && pavilionRequests[k].streetId in streets)
      && (forall k :: k in adRequests ==> adRequests[k].userId in users && adRequests[k].pavilionId in pavilions)
    }

    /** A street request names a street exactly when it was approved, and that street exists. */
    ghost predicate Linked()
    {
      forall k :: k in streetRequests ==>
        && (streetRequests[k].streetId.Some? <==> streetRequests[k].status == Approved)
        && (streetRequests[k].streetId.Some? ==> streetRequests[k].streetId.value in streets)
    }

    /** `Street.code` is unique. */
    ghost predicate UniqueCodes()
    {
      forall a, b :: a in streets && b in streets && a != b ==> streets[a].code != streets[b].code
    }

    ghost predicate Valid()
    {
      FreshIds() && References() && Linked() && UniqueCodes()
    }
  }

  /** The codes of the existing streets. */
  function CodesOf(streets: map<int, Street>): (r: set<string>)
    ensures forall c :: c in r <==> exists k :: k in streets && streets[k].code == c
  {
    set k | k in streets :: streets[k].code
  }

  /** The pavilions standing on street `s`. */
  function PavilionsOn(pavilions: map<int, Pavilion>, s: int): set<int>
  {
    set k | k in pavilions && pavilions[k].streetId == s
  }

  /** `session["user_role"] in ("master", "admin")`. */
  predicate MaySubmit(role: string)
  {
    role == "master" || role == "admin"
  }

  // ---------------------------------------------------------------- submissions

  /** What a submission form does. */
  datatype Submission =
    | Forbidden                      // the role may not submit
    | NoSuchTarget                   // the street or pavilion of the URL does not exist (404)
    | Invalid(errors: seq<FormError>)
    | Submitted(id: int)             // a pending request with this id was stored

  datatype Filed = Filed(db: Db, outcome: Submission)

  /** The checks of the street form on its stripped fields; a clean form is stored as a pending request. */
  function FileStreet(db: Db, userId: int, name: string, code: string, pavilionTitle: string, pavilionDesc: string): (r: Filed)
    requires db.FreshIds()
    ensures r.outcome.Invalid? || r.outcome.Submitted?
    ensures r.outcome.Submitted? <==> StreetFormErrors(name, code, pavilionTitle, CodesOf(db.streets)) == []
    ensures r.outcome.Invalid? ==>
      r.db == db && r.outcome.errors == StreetFormErrors(name, code, pavilionTitle, CodesOf(db.streets))
    ensures r.outcome.Submitted? ==>
      && r.outcome.id == db.ids.streetRequest && r.outcome.id !in db.streetRequests
      && r.db.streetRequests == db.streetRequests[r.outcome.id :=
           StreetRequest(userId, name, code, pavilionTitle, pavilionDesc, Pending, None)]
      && r.db.ids == db.ids.(streetRequest := r.outcome.id + 1)
      && r.db.(streetRequests := db.streetRequests, ids := db.ids) == db
  {
    var errs := StreetFormErrors(name, code, pavilionTitle, CodesOf(db.streets));
    if errs != [] then Filed(db, Invalid(errs))
    else
      var id := db.ids.streetRequest;
      Filed(db.(streetRequests := db.streetRequests[id := StreetRequest(userId, name, code, pavilionTitle, pavilionDesc, Pending, None)],
                ids := db.ids.(streetRequest := id + 1)),
            Submitted(id))
  }

  /** `request_street`: only masters and administrators may submit; the fields are stripped first. */
  function SubmitStreet(db: Db, role: string, userId: int, name: string, code: string,
                        pavilionTitle: string, pavilionDesc: string): (r: Filed)
    requires db.FreshIds()
    ensures r.outcome == Forbidden <==> !MaySubmit(role)
    ensures !MaySubmit(role) ==> r.db == db
    ensures MaySubmit(role) ==>
      r == FileStreet(db, userId, Strip(name), Strip(code), Strip(pavilionTitle), Strip(pavilionDesc))
  {
    if !MaySubmit(role) then Filed(db, Forbidden)
    else FileStreet(db, userId, Strip(name), Strip(code), Strip(pavilionTitle), Strip(pavilionDesc))
  }

  /**
   * The checks of the pavilion form on its stripped fields; a clean form is stored as a
   * pending request whose old `title` column repeats the pavilion title.
   */
  function FilePavilion(db: Db, userId: int, streetId: int, pavilionTitle: string,
                        pavilionDesc: string, adTitle: string, adText: string): (r: Filed)
    requires db.FreshIds()
    ensures r.outcome.Invalid? || r.outcome.Submitted?
    ensures r.outcome.Submitted? <==> PavilionFormErrors(pavilionTitle, adTitle, adText) == []
    ensures r.outcome.Invalid? ==> r.db == db && r.outcome.errors == PavilionFormErrors(pavilionTitle, adTitle, adText)
    ensures r.outcome.Submitted? ==>
      && r.outcome.id == db.ids.pavilionRequest && r.outcome.id !in db.pavilionRequests
      && r.db.pavilionRequests == db.pavilionRequests[r.outcome.id :=
           PavilionRequest(userId, streetId, pavilionTitle, pavilionTitle, pavilionDesc, adTitle, adText, Pending)]
      && r.db.ids == db.ids.(pavilionRequest := r.outcome.id + 1)
      && r.db.(pavilionRequests := db.pavilionRequests, ids := db.ids) == db
  {
    var errs := PavilionFormErrors(pavilionTitle, adTitle, adText);
    if errs != [] then Filed(db, Invalid(errs))
    else
      var id := db.ids.pavilionRequest;
      var req := PavilionRequest(userId, streetId, pavilionTitle, pavilionTitle, pavilionDesc, adTitle, adText, Pending);
      Filed(db.(pavilionRequests := db.pavilionRequests[id := req], ids := db.ids.(pavilionRequest := id + 1)),
            Submitted(id))
  }

  /** `pavilion_request`: the street must exist (404 first), then the role is checked and the fields stripped. */
  function SubmitPavilion(db: Db, role: string, userId: int, streetId: int, pavilionTitle: string,
                          pavilionDesc: string, adTitle: string, adText: string): (r: Filed)
    requires db.FreshIds()
    ensures r.outcome == NoSuchTarget <==> streetId !in db.streets
    ensures r.outcome == Forbidden <==> streetId in db.streets && !MaySubmit(role)
    ensures !(streetId in db.streets && MaySubmit(role)) ==> r.db == db
    ensures streetId in db.streets && MaySubmit(role) ==>
      r == FilePavilion(db, userId, streetId, Strip(pavilionTitle), Strip(pavilionDesc), Strip(adTitle), Strip(adText))
  {
    if streetId !in db.streets then Filed(db, NoSuchTarget)
    else if !MaySubmit(role) then Filed(db, Forbidden)
    else FilePavilion(db, userId, streetId, Strip(pavilionTitle), Strip(pavilionDesc), Strip(adTitle), Strip(adText))
  }

  /** The checks of the listing form on its stripped fields; a clean form is stored as a pending request. */
  function FileAd(db: Db, userId: int, pavilionId: int, title: string, text: string): (r: Filed)
    requires db.FreshIds()
    ensures r.outcome.Invalid? || r.outcome.Submitted?
    ensures r.outcome.Submitted? <==> AdFormErrors(title, text) == []
    ensures r.outcome.Invalid? ==> r.db == db && r.outcome.errors == AdFormErrors(title, text)
    ensures r.outcome.Submitted? ==>
      && r.outcome.id == db.ids.adRequest && r.outcome.id !in db.adRequests
      && r.db.adRequests == db.adRequests[r.outcome.id := AdRequest(userId, pavilionId, title, text, Pending)]
      && r.db.ids == db.ids.(adRequest := r.outcome.id + 1)
      && r.db.(adRequests := db.adRequests, ids := db.ids) == db
  {
    var errs := AdFormErrors(title, text);
    if errs != [] then Filed(db, Invalid(errs))
    else
      var id := db.ids.adRequest;
      Filed(db.(adRequests := db.adRequests[id := AdRequest(userId, pavilionId, title, text, Pending)],
                ids := db.ids.(adRequest := id + 1)),
            Submitted(id))
  }

  /** `offer_ad`: the pavilion must exist (404 first), then the role is checked and the fields stripped. */
  function SubmitAd(db: Db, role: string, userId: int, pavilionId: int, title: string, text: string): (r: Filed)
    requires db.FreshIds()
    ensures r.outcome == NoSuchTarget <==> pavilionId !in db.pavilions
    ensures r.outcome == Forbidden <==> pavilionId in db.pavilions && !MaySubmit(role)
    ensures !(pavilionId in db.pavilions && MaySubmit(role)) ==> r.db == db
    ensures pavilionId in db.pavilions && MaySubmit(role) ==>
      r == FileAd(db, userId, pavilionId, Strip(title), Strip(text))
  {
    if pavilionId !in db.pavilions then Filed(db, NoSuchTarget)
    else if !MaySubmit(role) then Filed(db, Forbidden)
    else FileAd(db, userId, pavilionId, Strip(title), Strip(text))
  }

  /** Storing a pending street request under the next id keeps the tables consistent. */
  lemma StoreStreetRequest(db: Db, req: StreetRequest)
    requires db.Valid() && req.userId in db.users && req.status == Pending && req.streetId.None?
    ensures db.(streetRequests := db.streetRequests[db.ids.streetRequest := req],
                ids := db.ids.(streetRequest := db.ids.streetRequest + 1)).Valid()
  {
    var d := db.(streetRequests := db.streetRequests[db.ids.streetRequest := req],
                 ids := db.ids.(streetRequest := db.ids.streetRequest + 1));
    assert d.FreshIds();
    assert d.References();
    assert d.Linked();
  }

  /** Storing a pavilion request on an existing street under the next id keeps the tables consistent. */
  lemma StorePavilionRequest(db: Db, req: PavilionRequest)
    requires db.Valid() && req.userId in db.users && req.streetId in db.streets
    ensures db.(pavilionRequests := db.pavilionRequests[db.ids.pavilionRequest := req],
                ids := db.ids.(pavilionRequest := db.ids.pavilionRequest + 1)).Valid()
  {
    var d := db.(pavilionRequests := db.pavilionRequests[db.ids.pavilionRequest := req],
                 ids := db.ids.(pavilionRequest := db.ids.pavilionRequest + 1));
    assert d.FreshIds();
    assert d.References();
  }

  /** Storing a listing request in an existing pavilion under the next id keeps the tables consistent. */
  lemma StoreAdRequest(db: Db, req: AdRequest)
    requires db.Valid() && req.userId in db.users && req.pavilionId in db.pavilions
    ensures db.(adRequests := db.adRequests[db.ids.adRequest := req],
                ids := db.ids.(adRequest := db.ids.adRequest + 1)).Valid()
  {
    var d := db.(adRequests := db.adRequests[db.ids.adRequest := req],
                 ids := db.ids.(adRequest := db.ids.adRequest + 1));
    assert d.FreshIds();
    assert d.References();
  }

  /** Submitting a street request keeps the tables consistent. */
  lemma SubmitStreetKeepsValid(db: Db, role: string, userId: int, name: string, code: string,
                               pavilionTitle: string, pavilionDesc: string)
    requires db.Valid() && userId in db.users
    ensures SubmitStreet(db, role, userId, name, code, pavilionTitle, pavilionDesc).db.Valid()
  {
    var r := SubmitStreet(db, role, userId, name, code, pavilionTitle, pavilionDesc);
    if r.outcome.Submitted? {
      StoreStreetRequest(db, r.db.streetRequests[r.outcome.id]);
    }
  }

  /** Submitting a pavilion request keeps the tables consistent. */
  lemma SubmitPavilionKeepsValid(db: Db, role: string, userId: int, streetId: int, pavilionTitle: string,
                                 pavilionDesc: string, adTitle: string, adText: string)
    requires db.Valid() && userId in db.users
    ensures SubmitPavilion(db, role, userId, streetId, pavilionTitle, pavilionDesc, adTitle, adText).db.Valid()
  {
    var r := SubmitPavilion(db, role, userId, streetId, pavilionTitle, pavilionDesc, adTitle, adText);
    if r.outcome.Submitted? {
      StorePavilionRequest(db, r.db.pavilionRequests[r.outcome.id]);
    }
  }

  /** Submitting a listing request keeps the tables consistent. */
  lemma SubmitAdKeepsValid(db: Db, role: string, userId: int, pavilionId: int, title: string, text: string)
    requires db.Valid() && userId in db.users
    ensures SubmitAd(db, role, userId, pavilionId, title, text).db.Valid()
  {
    var r := SubmitAd(db, role, userId, pavilionId, title, text);
    if r.outcome.Submitted? {
      StoreAdRequest(db, r.db.adRequests[r.outcome.id]);
    }
  }

  // ---------------------------------------------------------------- decisions

  /** What an approve or reject button does. */
  datatype Decision =
    | Done               // the request moved out of pending
    | NotFound           // no request with this id (404)
    | AlreadyProcessed   // the request was already decided: nothing changes
    | DuplicateCode      // the new street's code is taken: the unique constraint fails the flush

  datatype Moderated = Moderated(db: Db, decision: Decision)

  /** `approve_request`: a pending street request becomes a street with its first pavilion. */
  function ApproveStreet(db: Db, id: int): (r: Moderated)
    ensures r.decision == NotFound <==> id !in db.streetRequests
    ensures r.decision == AlreadyProcessed <==> id in db.streetRequests && db.streetRequests[id].status != Pending
    ensures r.decision == DuplicateCode <==>
      id in db.streetRequests && db.streetRequests[id].status == Pending
      && db.streetRequests[id].streetCode in CodesOf(db.streets)
    ensures r.decision != Done ==> r.db == db
  {
    if id !in db.streetRequests then Moderated(db, NotFound)
    else
      var req := db.streetRequests[id];
      if req.status != Pending then Moderated(db, AlreadyProcessed)
      else if req.streetCode in CodesOf(db.streets) then Moderated(db, DuplicateCode)
      else
        var s, p := db.ids.street, db.ids.pavilion;
        Moderated(
          db.(streets := db.streets[s := Street(req.streetName, req.streetCode)],
              pavilions := db.pavilions[p := Pavilion(req.pavilionTitle, req.pavilionDesc, s)],
              streetRequests := db.streetRequests[id := req.(status := Approved, streetId := Some(s))],
              ids := db.ids.(street := s + 1, pavilion := p + 1)),
          Done)
  }

  /** `reject_request`. */
  function RejectStreet(db: Db, id: int): (r: Moderated)
    ensures r.decision == NotFound <==> id !in db.streetRequests
    ensures r.decision == AlreadyProcessed <==> id in db.streetRequests && db.streetRequests[id].status != Pending
    ensures r.decision != DuplicateCode
    ensures r.decision != Done ==> r.db == db
    ensures r.decision == Done ==>
      r.db == db.(streetRequests := db.streetRequests[id := db.streetRequests[id].(status := Rejected)])
  {
    if id !in db.streetRequests then Moderated(db, NotFound)
    else
      var req := db.streetRequests[id];
      if req.status != Pending then Moderated(db, AlreadyProcessed)
      else Moderated(db.(streetRequests := db.streetRequests[id := req.(status := Rejected)]), Done)
  }

  /**
   * `admin_approve_pavilion_request`: a pending pavilion request becomes a pavilion on its
   * street and a first listing in it, owned and signed by the requester.
   */
  function ApprovePavilion(db: Db, id: int): (r: Moderated)
    requires db.Valid()
    ensures r.decision == NotFound <==> id !in db.pavilionRequests
    ensures r.decision == AlreadyProcessed <==> id in db.pavilionRequests && db.pavilionRequests[id].status != Pending
    ensures r.decision != DuplicateCode
    ensures r.decision != Done ==> r.db == db
  {
    if id !in db.pavilionRequests then Moderated(db, NotFound)
    else
      var req := db.pavilionRequests[id];
      if req.status != Pending then Moderated(db, AlreadyProcessed)
      else
        var p, a := db.ids.pavilion, db.ids.ad;
        Moderated(
          db.(pavilions := db.pavilions[p := Pavilion(req.pavilionTitle, req.pavilionDesc, req.streetId)],
              ads := db.ads[a := Ad(req.adTitle, req.adText, Some(db.users[req.userId].username), p, Some(req.userId))],
              pavilionRequests := db.pavilionRequests[id := req.(status := Approved)],
              ids := db.ids.(pavilion := p + 1, ad := a + 1)),
          Done)
  }

  /** `admin_reject_pavilion_request`. */
  function RejectPavilion(db: Db, id: int): (r: Moderated)
    ensures r.decision == NotFound <==> id !in db.pavilionRequests
    ensures r.decision == AlreadyProcessed <==> id in db.pavilionRequests && db.pavilionRequests[id].status != Pending
    ensures r.decision != DuplicateCode
    ensures r.decision != Done ==> r.db == db
    ensures r.decision == Done ==>
      r.db == db.(pavilionRequests := db.pavilionRequests[id := db.pavilionRequests[id].(status := Rejected)])
  {
    if id !in db.pavilionRequests then Moderated(db, NotFound)
    else
      var req := db.pavilionRequests[id];
      if req.status != Pending then Moderated(db, AlreadyProcessed)
      else Moderated(db.(pavilionRequests := db.pavilionRequests[id := req.(status := Rejected)]), Done)
  }

  /** `admin_approve_ad_request`: a pending listing request is published, owned and signed by the requester. */
  function ApproveAd(db: Db, id: int): (r: Moderated)
    requires db.Valid()
    ensures r.decision == NotFound <==> id !in db.adRequests
    ensures r.decision == AlreadyProcessed <==> id in db.adRequests && db.adRequests[id].status != Pending
    ensures r.decision != DuplicateCode
    ensures r.decision != Done ==> r.db == db
  {
    if id !in db.adRequests then Moderated(db, NotFound)
    else
      var req := db.adRequests[id];
      if req.status != Pending then Moderated(db, AlreadyProcessed)
      else
        var a := db.ids.ad;
        Moderated(
          db.(ads := db.ads[a := Ad(req.title, req.text, Some(db.users[req.userId].username), req.pavilionId, Some(req.userId))],
              adRequests := db.adRequests[id := req.(status := Approved)],
              ids := db.ids.(ad := a + 1)),
          Done)
  }

  /** `admin_reject_ad_request`. */
  function RejectAd(db: Db, id: int): (r: Moderated)
    ensures r.decision == NotFound <==> id !in db.adRequests
    ensures r.decision == AlreadyProcessed <==> id in db.adRequests && db.adRequests[id].status != Pending
    ensures r.decision != DuplicateCode
    ensures r.decision != Done ==> r.db == db
    ensures r.decision == Done ==>
      r.db == db.(adRequests := db.adRequests[id := db.adRequests[id].(status := Rejected)])
  {
    if id !in db.adRequests then Moderated(db, NotFound)
    else
      var req := db.adRequests[id];
      if req.status != Pending then Moderated(db, AlreadyProcessed)
      else Moderated(db.(adRequests := db.adRequests[id := req.(status := Rejected)]), Done)
  }

  /**
   * Approving a street request adds exactly one street, under a fresh id, with the
   * request's name and code, and exactly one pavilion on it with the request's title and
   * description; the request is approved and names the new street. Nothing else changes.
   */
  lemma StreetApprovalCreates(db: Db, id: int)
    requires db.Valid() && ApproveStreet(db, id).decision == Done
    ensures var r, req := ApproveStreet(db, id).db, db.streetRequests[id];
      exists s, p ::
        && s !in db.streets && p !in db.pavilions
        && r.streets == db.streets[s := Street(req.streetName, req.streetCode)]
        && r.pavilions == db.pavilions[p := Pavilion(req.pavilionTitle, req.pavilionDesc, s)]
        && PavilionsOn(r.pavilions, s) == {p}
        && r.streetRequests == db.streetRequests[id := req.(status := Approved, streetId := Some(s))]
        && r.ads == db.ads && r.users == db.users
        && r.pavilionRequests == db.pavilionRequests && r.adRequests == db.adRequests
  {
    var r, req := ApproveStreet(db, id).db, db.streetRequests[id];
    var s, p := db.ids.street, db.ids.pavilion;
    assert s !in db.streets && p !in db.pavilions;
    forall k | k in r.pavilions && k != p ensures r.pavilions[k].streetId != s {
      assert db.pavilions[k].streetId in db.streets;
    }
    assert p in PavilionsOn(r.pavilions, s);
  }

  /**
   * Approving a pavilion request adds exactly one pavilion on the requested street and
   * exactly one listing in it, owned by the requester and signed with their username.
   */
  lemma PavilionApprovalPublishes(db: Db, id: int)
    requires db.Valid() && ApprovePavilion(db, id).decision == Done
    ensures var r, req := ApprovePavilion(db, id).db, db.pavilionRequests[id];
      exists p, a ::
        && p !in db.pavilions && a !in db.ads
        && r.pavilions == db.pavilions[p := Pavilion(req.pavilionTitle, req.pavilionDesc, req.streetId)]
        && r.ads == db.ads[a := Ad(req.adTitle, req.adText, Some(db.users[req.userId].username), p, Some(req.userId))]
        && r.pavilionRequests == db.pavilionRequests[id := req.(status := Approved)]
        && r.streets == db.streets && r.users == db.users
        && r.streetRequests == db.streetRequests && r.adRequests == db.adRequests
  {
    assert db.ids.pavilion !in db.pavilions && db.ids.ad !in db.ads;
  }

  /** Approving a listing request publishes exactly one listing, owned by the requester and signed with their username. */
  lemma AdApprovalPublishes(db: Db, id: int)
    requires db.Valid() && ApproveAd(db, id).decision == Done
    ensures var r, req := ApproveAd(db, id).db, db.adRequests[id];
      exists a ::
        && a !in db.ads
        && r.ads == db.ads[a := Ad(req.title, req.text, Some(db.users[req.userId].username), req.pavilionId, Some(req.userId))]
        && r.adRequests == db.adRequests[id := req.(status := Approved)]
        && r.streets == db.streets && r.pavilions == db.pavilions && r.users == db.users
        && r.streetRequests == db.streetRequests && r.pavilionRequests == db.pavilionRequests
  {
    assert db.ids.ad !in db.ads;
  }

  lemma ApproveStreetKeepsValid(db: Db, id: int)
    requires db.Valid()
    ensures ApproveStreet(db, id).db.Valid()
  {
    var r := ApproveStreet(db, id);
    if r.decision == Done {
      var d, req, s := r.db, db.streetRequests[id], db.ids.street;
      assert req.streetCode !in CodesOf(db.streets);
      assert d.FreshIds();
      assert d.References();
      assert d.Linked();
      assert d.UniqueCodes() by {
        forall a, b | a in d.streets && b in d.streets && a != b ensures d.streets[a].code != d.streets[b].code {
          if a == s {
            assert d.streets[b] == db.streets[b];
          } else if b == s {
            assert d.streets[a] == db.streets[a];
          }
        }
      }
    }
  }

  lemma ApprovePavilionKeepsValid(db: Db, id: int)
    requires db.Valid()
    ensures ApprovePavilion(db, id).db.Valid()
  {
    var r := ApprovePavilion(db, id);
    if r.decision == Done {
      var d := r.db;
      assert d.FreshIds();
      assert d.References();
      assert d.Linked();
    }
  }

  lemma ApproveAdKeepsValid(db: Db, id: int)
    requires db.Valid()
    ensures ApproveAd(db, id).db.Valid()
  {
    var r := ApproveAd(db, id);
    if r.decision == Done {
      var d := r.db;
      assert d.FreshIds();
      assert d.References();
    }
  }

  /** Rejections only relabel a pending request, so they keep the tables consistent. */
  lemma RejectStreetKeepsValid(db: Db, id: int)
    requires db.Valid()
    ensures RejectStreet(db, id).db.Valid()
  {
    var r := RejectStreet(db, id);
    if r.decision == Done {
      var d := r.db;
      assert d.FreshIds();
      assert d.References();
      assert d.Linked();
    }
  }

  lemma RejectPavilionKeepsValid(db: Db, id: int)
    requires db.Valid()
    ensures RejectPavilion(db, id).db.Valid()
  {
    var r := RejectPavilion(db, id);
    if r.decision == Done {
      var d := r.db;
      assert d.FreshIds();
      assert d.References();
    }
  }

  lemma RejectAdKeepsValid(db: Db, id: int)
    requires db.Valid()
    ensures RejectAd(db, id).db.Valid()
  {
    var r := RejectAd(db, id);
    if r.decision == Done {
      var d := r.db;
      assert d.FreshIds();
      assert d.References();
    }
  }

  // ---------------------------------------------------------------- the six buttons together

  datatype Kind = StreetKind | PavilionKind | AdKind

  /** An approve or reject button pressed on request `id` of one kind. */
  datatype Action = Approve(kind: Kind, id: int) | Reject(kind: Kind, id: int)

  function Moderate(db: Db, a: Action): Moderated
    requires db.Valid()
  {
    match a
    case Approve(StreetKind, id) => ApproveStreet(db, id)
    case Approve(PavilionKind, id) => ApprovePavilion(db, id)
    case Approve(AdKind, id) => ApproveAd(db, id)
    case Reject(StreetKind, id) => RejectStreet(db, id)
    case Reject(PavilionKind, id) => RejectPavilion(db, id)
    case Reject(AdKind, id) => RejectAd(db, id)
  }

  /** The status column of one request table. */
  function StatusesOf(db: Db, kind: Kind): (r: map<int, Status>)
    ensures kind == StreetKind ==> r.Keys == db.streetRequests.Keys
    ensures kind == PavilionKind ==> r.Keys == db.pavilionRequests.Keys
    ensures kind == AdKind ==> r.Keys == db.adRequests.Keys
  {
    match kind
    case StreetKind => map k | k in db.streetRequests :: db.streetRequests[k].status
    case PavilionKind => map k | k in db.pavilionRequests :: db.pavilionRequests[k].status
    case AdKind => map k | k in db.adRequests :: db.adRequests[k].status
  }

  /** Every button keeps the tables consistent. */
  lemma ModerateKeepsValid(db: Db, a: Action)
    requires db.Valid()
    ensures Moderate(db, a).db.Valid()
  {
    match a
    case Approve(StreetKind, id) => ApproveStreetKeepsValid(db, id);
    case Approve(PavilionKind, id) => ApprovePavilionKeepsValid(db, id);
    case Approve(AdKind, id) => ApproveAdKeepsValid(db, id);
    case Reject(StreetKind, id) => RejectStreetKeepsValid(db, id);
    case Reject(PavilionKind, id) => RejectPavilionKeepsValid(db, id);
    case Reject(AdKind, id) => RejectAdKeepsValid(db, id);
  }

  /** The status column after a decision on request `id` of `kind` in a pending state. */
  lemma StatusesRelabel(db: Db, r: Db, kind: Kind, id: int, s: Status)
    requires id in StatusesOf(db, kind)
    requires kind == StreetKind ==>
      && id in r.streetRequests && r.streetRequests == db.streetRequests[id := r.streetRequests[id]]
      && r.streetRequests[id].status == s
      && r.pavilionRequests == db.pavilionRequests && r.adRequests == db.adRequests
    requires kind == PavilionKind ==>
      && r.pavilionRequests == db.pavilionRequests[id := db.pavilionRequests[id].(status := s)]
      && r.streetRequests == db.streetRequests && r.adRequests == db.adRequests
    requires kind == AdKind ==>
      && r.adRequests == db.adRequests[id := db.adRequests[id].(status := s)]
      && r.streetRequests == db.streetRequests && r.pavilionRequests == db.pavilionRequests
    ensures StatusesOf(r, kind) == StatusesOf(db, kind)[id := s]
    ensures forall k :: k != kind ==> StatusesOf(r, k) == StatusesOf(db, k)
  {
    var after, want := StatusesOf(r, kind), StatusesOf(db, kind)[id := s];
    assert after.Keys == want.Keys;
    forall k | k in after ensures after[k] == want[k] {
    }
  }

  /**
   * A button acts exactly on a pending request: then the request leaves pending (approved
   * or rejected as pressed) and no other request of any kind changes status; otherwise
   * nothing changes at all.
   */
  lemma ModerateOnlyFromPending(db: Db, a: Action)
    requires db.Valid()
    ensures Moderate(db, a).decision != Done ==> Moderate(db, a).db == db
    ensures Moderate(db, a).decision == Done ==>
      && a.id in StatusesOf(db, a.kind) && StatusesOf(db, a.kind)[a.id] == Pending
      && StatusesOf(Moderate(db, a).db, a.kind) ==
           StatusesOf(db, a.kind)[a.id := if a.Approve? then Approved else Rejected]
      && forall k :: k != a.kind ==> StatusesOf(Moderate(db, a).db, k) == StatusesOf(db, k)
  {
    var r := Moderate(db, a);
    if r.decision == Done {
      var s := if a.Approve? then Approved else Rejected;
      match a.kind {
        case StreetKind =>
          if a.Approve? {
            StreetApprovalCreates(db, a.id);
          }
          StatusesRelabel(db, r.db, a.kind, a.id, s);
        case PavilionKind =>
          if a.Approve? {
            PavilionApprovalPublishes(db, a.id);
          }
          StatusesRelabel(db, r.db, a.kind, a.id, s);
        case AdKind =>
          if a.Approve? {
            AdApprovalPublishes(db, a.id);
          }
          StatusesRelabel(db, r.db, a.kind, a.id, s);
      }
    }
  }

  /** Once a request has been decided, every later button on it reports it as processed and changes nothing. */
  lemma DecisionIsFinal(db: Db, a: Action, b: Action)
    requires db.Valid() && Moderate(db, a).decision == Done
    requires b.kind == a.kind && b.id == a.id
    ensures Moderate(db, a).db.Valid()
    ensures Moderate(Moderate(db, a).db, b) == Moderated(Moderate(db, a).db, AlreadyProcessed)
  {
    ModerateKeepsValid(db, a);
    ModerateOnlyFromPending(db, a);
    var after := Moderate(db, a).db;
    assert StatusesOf(after, a.kind)[a.id] != Pending;
  }

  // ---------------------------------------------------------------- tallies

  /** The `stats` dictionary of the admin request pages. */
  datatype Tally = Tally(total: nat, pending: nat, approved: nat, rejected: nat)

  function WithStatus(st: map<int, Status>, s: Status): set<int>
  {
    set k | k in st && st[k] == s
  }

  function TallyOf(st: map<int, Status>): Tally
  {
    Tally(|st.Keys|, |WithStatus(st, Pending)|, |WithStatus(st, Approved)|, |WithStatus(st, Rejected)|)
  }

  /** Every request is counted under exactly one status. */
  lemma TallyAddsUp(st: map<int, Status>)
    ensures TallyOf(st).total == TallyOf(st).pending + TallyOf(st).approved + TallyOf(st).rejected
  {
    var p, a, r := WithStatus(st, Pending), WithStatus(st, Approved), WithStatus(st, Rejected);
    forall k | k in st ensures k in p + a + r {
      match st[k]
      case Pending => assert k in p;
      case Approved => assert k in a;
      case Rejected => assert k in r;
    }
    assert st.Keys == p + a + r;
    assert p * a == {} && (p + a) * r == {};
  }

  /** Deciding a pending request moves one count from pending to the decided status. */
  lemma TallyAfterDecision(st: map<int, Status>, id: int, s: Status)
    requires id in st && st[id] == Pending && s != Pending
    ensures TallyOf(st[id := s]).total == TallyOf(st).total
    ensures TallyOf(st[id := s]).pending == TallyOf(st).pending - 1
    ensures s == Approved ==>
      TallyOf(st[id := s]).approved == TallyOf(st).approved + 1 && TallyOf(st[id := s]).rejected == TallyOf(st).rejected
    ensures s == Rejected ==>
      TallyOf(st[id := s]).rejected == TallyOf(st).rejected + 1 && TallyOf(st[id := s]).approved == TallyOf(st).approved
  {
    var st' := st[id := s];
    assert st'.Keys == st.Keys;
    assert WithStatus(st', Pending) == WithStatus(st, Pending) - {id};
    assert WithStatus(st', s) == WithStatus(st, s) + {id};
    var other := if s == Approved then Rejected else Approved;
    assert WithStatus(st', other) == WithStatus(st, other);
  }

  /** A decision moves one request of its kind from pending to its new status in that kind's tally. */
  lemma ModerateMovesTally(db: Db, a: Action)
    requires db.Valid() && Moderate(db, a).decision == Done
    ensures var before, after := TallyOf(StatusesOf(db, a.kind)), TallyOf(StatusesOf(Moderate(db, a).db, a.kind));
      && after.total == before.total
      && after.pending == before.pending - 1
      && (a.Approve? ==> after.approved == before.approved + 1 && after.rejected == before.rejected)
      && (a.Reject? ==> after.rejected == before.rejected + 1 && after.approved == before.approved)
  {
    ModerateOnlyFromPending(db, a);
    TallyAfterDecision(StatusesOf(db, a.kind), a.id, if a.Approve? then Approved else Rejected);
  }
}
