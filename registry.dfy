/**
 * The request handlers of app.py over the database tables they update in place: each
 * handler reads rows, adds rows and relabels the request, then commits. Every handler is
 * proved to leave the tables exactly as the corresponding operation of Moderation says.
 */
module Database {
  import opened Wrappers
  import opened Text
  import opened Models
  import opened Validators
  import opened Moderation

  /**
   * The database as the request handlers see it: each handler reads rows, adds rows and
   * updates the request's status in place, then commits.
   */
  class Registry {
    var users: map<int, User>
    var streets: map<int, Street>
    var pavilions: map<int, Pavilion>
    var ads: map<int, Ad>
    var streetRequests: map<int, StreetRequest>
    var pavilionRequests: map<int, PavilionRequest>
    var adRequests: map<int, AdRequest>
    var nextStreetId: int
    var nextPavilionId: int
    var nextAdId: int
    var nextStreetRequestId: int
    var nextPavilionRequestId: int
    var nextAdRequestId: int

    function Snapshot(): Db
      reads this
    {
      Db(users, streets, pavilions, ads, streetRequests, pavilionRequests, adRequests,
         NextIds(nextStreetId, nextPavilionId, nextAdId, nextStreetRequestId, nextPavilionRequestId, nextAdRequestId))
    }

    ghost predicate Valid()
      reads this
    {
      Snapshot().Valid()
    }

    /** A fresh database with the given accounts and no streets, listings or requests. */
    constructor (accounts: map<int, User>)
      ensures Valid()
      ensures Snapshot() == Db(accounts, map[], map[], map[], map[], map[], map[], NextIds(1, 1, 1, 1, 1, 1))
    {
      users, streets, pavilions, ads := accounts, map[], map[], map[];
      streetRequests, pavilionRequests, adRequests := map[], map[], map[];
      nextStreetId, nextPavilionId, nextAdId := 1, 1, 1;
      nextStreetRequestId, nextPavilionRequestId, nextAdRequestId := 1, 1, 1;
    }

    /** `request_street`: only masters and administrators may submit; the fields are stripped first. */
    method RequestStreet(role: string, userId: int, name: string, code: string,
                         pavilionTitle: string, pavilionDesc: string) returns (outcome: Submission)
      requires Valid() && userId in users
      modifies this
      ensures Valid()
      ensures Filed(Snapshot(), outcome) == SubmitStreet(old(Snapshot()), role, userId, name, code, pavilionTitle, pavilionDesc)
    {
      SubmitStreetKeepsValid(Snapshot(), role, userId, name, code, pavilionTitle, pavilionDesc);
      if !MaySubmit(role) {
        return Forbidden;
      }
      outcome := FileStreetRequest(userId, Strip(name), Strip(code), Strip(pavilionTitle), Strip(pavilionDesc));
    }

    /** The rest of `request_street` once the fields are stripped: validate, then store a pending request. */
    method FileStreetRequest(userId: int, name: string, code: string, pavilionTitle: string, pavilionDesc: string)
      returns (outcome: Submission)
      requires Snapshot().FreshIds()
      modifies this
      ensures Filed(Snapshot(), outcome) == FileStreet(old(Snapshot()), userId, name, code, pavilionTitle, pavilionDesc)
    {
      var errs := StreetFormErrors(name, code, pavilionTitle, CodesOf(streets));
      if errs != [] {
        return Invalid(errs);
      }
      var id := nextStreetRequestId;
      streetRequests := streetRequests[id := StreetRequest(userId, name, code, pavilionTitle, pavilionDesc, Pending, None)];
      nextStreetRequestId := id + 1;
      outcome := Submitted(id);
    }

    /** `pavilion_request`: the street must exist (404 first), then the role is checked and the fields stripped. */
    method RequestPavilion(role: string, userId: int, streetId: int, pavilionTitle: string,
                           pavilionDesc: string, adTitle: string, adText: string) returns (outcome: Submission)
      requires Valid() && userId in users
      modifies this
      ensures Valid()
      ensures Filed(Snapshot(), outcome) ==
        SubmitPavilion(old(Snapshot()), role, userId, streetId, pavilionTitle, pavilionDesc, adTitle, adText)
    {
      SubmitPavilionKeepsValid(Snapshot(), role, userId, streetId, pavilionTitle, pavilionDesc, adTitle, adText);
      if streetId !in streets {
        return NoSuchTarget;
      }
      if !MaySubmit(role) {
        return Forbidden;
      }
      outcome := FilePavilionRequest(userId, streetId, Strip(pavilionTitle), Strip(pavilionDesc), Strip(adTitle), Strip(adText));
    }

    /** The rest of `pavilion_request` once the fields are stripped. */
    method FilePavilionRequest(userId: int, streetId: int, pavilionTitle: string, pavilionDesc: string,
                               adTitle: string, adText: string) returns (outcome: Submission)
      requires Snapshot().FreshIds()
      modifies this
      ensures Filed(Snapshot(), outcome) ==
        FilePavilion(old(Snapshot()), userId, streetId, pavilionTitle, pavilionDesc, adTitle, adText)
    {
      var errs := PavilionFormErrors(pavilionTitle, adTitle, adText);
      if errs != [] {
        return Invalid(errs);
      }
      var id := nextPavilionRequestId;
      pavilionRequests := pavilionRequests[id :=
        PavilionRequest(userId, streetId, pavilionTitle, pavilionTitle, pavilionDesc, adTitle, adText, Pending)];
      nextPavilionRequestId := id + 1;
      outcome := Submitted(id);
    }

    /** `offer_ad`: the pavilion must exist (404 first), then the role is checked and the fields stripped. */
    method OfferAd(role: string, userId: int, pavilionId: int, title: string, text: string) returns (outcome: Submission)
      requires Valid() && userId in users
      modifies this
      ensures Valid()
      ensures Filed(Snapshot(), outcome) == SubmitAd(old(Snapshot()), role, userId, pavilionId, title, text)
    {
      SubmitAdKeepsValid(Snapshot(), role, userId, pavilionId, title, text);
      if pavilionId !in pavilions {
        return NoSuchTarget;
      }
      if !MaySubmit(role) {
        return Forbidden;
      }
      outcome := FileAdRequest(userId, pavilionId, Strip(title), Strip(text));
    }

    /** The rest of `offer_ad` once the fields are stripped. */
    method FileAdRequest(userId: int, pavilionId: int, title: string, text: string) returns (outcome: Submission)
      requires Snapshot().FreshIds()
      modifies this
      ensures Filed(Snapshot(), outcome) == FileAd(old(Snapshot()), userId, pavilionId, title, text)
    {
      var errs := AdFormErrors(title, text);
      if errs != [] {
        return Invalid(errs);
      }
      var id := nextAdRequestId;
      adRequests := adRequests[id := AdRequest(userId, pavilionId, title, text, Pending)];
      nextAdRequestId := id + 1;
      outcome := Submitted(id);
    }

    /** `approve_request`. */
    method ApproveStreetRequest(id: int) returns (decision: Decision)
      requires Valid()
      modifies this
      ensures Valid()
      ensures Moderated(Snapshot(), decision) == ApproveStreet(old(Snapshot()), id)
    {
      ApproveStreetKeepsValid(Snapshot(), id);
      if id !in streetRequests {
        return NotFound;
      }
      if streetRequests[id].status != Pending {
        return AlreadyProcessed;
      }
      if streetRequests[id].streetCode in CodesOf(streets) {
        return DuplicateCode;
      }
      OpenStreet(id);
      decision := Done;
    }

    /** The commit of `approve_request`: the street, its first pavilion, and the request marked approved. */
    method OpenStreet(id: int)
      requires id in streetRequests && streetRequests[id].status == Pending
      requires streetRequests[id].streetCode !in CodesOf(streets)
      modifies this
      ensures Moderated(Snapshot(), Done) == ApproveStreet(old(Snapshot()), id)
    {
      var req, s, p := streetRequests[id], nextStreetId, nextPavilionId;
      streets := streets[s := Street(req.streetName, req.streetCode)];
      pavilions := pavilions[p := Pavilion(req.pavilionTitle, req.pavilionDesc, s)];
      streetRequests := streetRequests[id := req.(status := Approved, streetId := Some(s))];
      nextStreetId, nextPavilionId := s + 1, p + 1;
    }

    /** `reject_request`. */
    method RejectStreetRequest(id: int) returns (decision: Decision)
      requires Valid()
      modifies this
      ensures Valid()
      ensures Moderated(Snapshot(), decision) == RejectStreet(old(Snapshot()), id)
    {
      RejectStreetKeepsValid(Snapshot(), id);
      if id !in streetRequests {
        return NotFound;
      }
      var req := streetRequests[id];
      if req.status != Pending {
        return AlreadyProcessed;
      }
      streetRequests := streetRequests[id := req.(status := Rejected)];
      decision := Done;
    }

    /** `admin_approve_pavilion_request`. */
    method ApprovePavilionRequest(id: int) returns (decision: Decision)
      requires Valid()
      modifies this
      ensures Valid()
      ensures Moderated(Snapshot(), decision) == ApprovePavilion(old(Snapshot()), id)
    {
      ApprovePavilionKeepsValid(Snapshot(), id);
      if id !in pavilionRequests {
        return NotFound;
      }
      if pavilionRequests[id].status != Pending {
        return AlreadyProcessed;
      }
      OpenPavilion(id);
      decision := Done;
    }

    /** The commit of `admin_approve_pavilion_request`: the pavilion, its first listing, and the request marked approved. */
    method OpenPavilion(id: int)
      requires Valid() && id in pavilionRequests && pavilionRequests[id].status == Pending
      modifies this
      ensures Moderated(Snapshot(), Done) == ApprovePavilion(old(Snapshot()), id)
    {
      var req, p, a := pavilionRequests[id], nextPavilionId, nextAdId;
      var author := users[req.userId];
      pavilions := pavilions[p := Pavilion(req.pavilionTitle, req.pavilionDesc, req.streetId)];
      ads := ads[a := Ad(req.adTitle, req.adText, Some(author.username), p, Some(req.userId))];
      pavilionRequests := pavilionRequests[id := req.(status := Approved)];
      nextPavilionId, nextAdId := p + 1, a + 1;
    }

    /** `admin_reject_pavilion_request`. */
    method RejectPavilionRequest(id: int) returns (decision: Decision)
      requires Valid()
      modifies this
      ensures Valid()
      ensures Moderated(Snapshot(), decision) == RejectPavilion(old(Snapshot()), id)
    {
      RejectPavilionKeepsValid(Snapshot(), id);
      if id !in pavilionRequests {
        return NotFound;
      }
      var req := pavilionRequests[id];
      if req.status != Pending {
        return AlreadyProcessed;
      }
      pavilionRequests := pavilionRequests[id := req.(status := Rejected)];
      decision := Done;
    }

    /** `admin_approve_ad_request`. */
    method ApproveAdRequest(id: int) returns (decision: Decision)
      requires Valid()
      modifies this
      ensures Valid()
      ensures Moderated(Snapshot(), decision) == ApproveAd(old(Snapshot()), id)
    {
      ApproveAdKeepsValid(Snapshot(), id);
      if id !in adRequests {
        return NotFound;
      }
      if adRequests[id].status != Pending {
        return AlreadyProcessed;
      }
      PublishAd(id);
      decision := Done;
    }

    /** The commit of `admin_approve_ad_request`: the listing, and the request marked approved. */
    method PublishAd(id: int)
      requires Valid() && id in adRequests && adRequests[id].status == Pending
      modifies this
      ensures Moderated(Snapshot(), Done) == ApproveAd(old(Snapshot()), id)
    {
      var req, a := adRequests[id], nextAdId;
      var author := users[req.userId];
      ads := ads[a := Ad(req.title, req.text, Some(author.username), req.pavilionId, Some(req.userId))];
      adRequests := adRequests[id := req.(status := Approved)];
      nextAdId := a + 1;
    }

    /** `admin_reject_ad_request`. */
    method RejectAdRequest(id: int) returns (decision: Decision)
      requires Valid()
      modifies this
      ensures Valid()
      ensures Moderated(Snapshot(), decision) == RejectAd(old(Snapshot()), id)
    {
      RejectAdKeepsValid(Snapshot(), id);
      if id !in adRequests {
        return NotFound;
      }
      var req := adRequests[id];
      if req.status != Pending {
        return AlreadyProcessed;
      }
      adRequests := adRequests[id := req.(status := Rejected)];
      decision := Done;
    }
  }
}
