/** `DonationService`: storing donations, the field-copying update, deletion
    and the critical-pending lookup. */
module DonationService {
  import opened Common
  import opened DonationEntity
  import opened DonationRepository

  /** The row `updateDonation` builds: the eight copied fields come from the
      details; key, donor, seeker and both timestamps stay as stored. */
  function CopyDetails(stored: DonationRow, details: DonationRow): (r: DonationRow)
    ensures r == details.(id := stored.id, donor := stored.donor, seeker := stored.seeker,
                          createdAt := stored.createdAt, updatedAt := stored.updatedAt)
  {
    stored.(bloodGroup := details.bloodGroup, amount := details.amount,
            donationType := details.donationType, location := details.location,
            status := details.status, urgency := details.urgency,
            scheduledDate := details.scheduledDate, completedDate := details.completedDate)
  }

  /** No status transition is enforced: any stored status can be replaced by
      any other, a completed donation going back to pending included. */
  lemma AnyStatusTransition(stored: DonationRow, status: string)
    ensures CopyDetails(stored, stored.(status := status)).status == status
    ensures CopyDetails(stored, stored.(status := status)) == stored.(status := status)
  {
  }

  class DonationService {
    const donations: DonationTable

    constructor (donations: DonationTable)
      ensures this.donations == donations
    {
      this.donations := donations;
    }

    predicate Valid()
      reads this, donations
    {
      donations.Valid()
    }

    /** `createDonation`: the donation is saved as given, with a fresh key and both timestamps. */
    method CreateDonation(donation: Donation, now: Timestamp) returns (saved: DonationRow)
      requires Valid() && donation.id.None?
      modifies donations, donation
      ensures Valid()
      ensures saved == old(donation.Row()).(id := Some(old(donations.nextId)), createdAt := Some(now), updatedAt := Some(now))
      ensures donations.rows == old(donations.rows) + [saved]
      ensures donations.nextId == old(donations.nextId) + 1
    {
      saved := donations.Insert(donation, now);
    }

    /** `updateDonation`: a missing key throws "Donation not found"; otherwise
        the stored row gets the eight copied fields, keeps its key and
        parties, and every other row is left as it was. */
    method UpdateDonation(id: int, details: DonationRow, now: Timestamp) returns (r: Result<DonationRow>)
      requires Valid()
      modifies donations
      ensures Valid() && donations.nextId == old(donations.nextId)
      ensures old(FindById(donations.rows, id)).None? ==>
        r == Err("Donation not found") && donations.rows == old(donations.rows)
      ensures old(FindById(donations.rows, id)).Some? ==>
        var stored := old(FindById(donations.rows, id)).value;
        && r == Ok(Flushed(CopyDetails(stored, details), stored, now))
        && r.value.id == Some(id) && r.value.donor == stored.donor && r.value.seeker == stored.seeker
      ensures |donations.rows| == |old(donations.rows)|
      ensures forall i :: 0 <= i < |donations.rows| ==>
        donations.rows[i] == (if old(donations.rows[i]).id == Some(id) then r.value else old(donations.rows[i]))
    {
      var found := IndexWhere(donations.rows, HasId(id));
      if found.None? {
        return Err("Donation not found");
      }
      var k := found.value;
      var stored := donations.rows[k];
      var e := new Donation.Load(stored);
      e.SetBloodGroup(details.bloodGroup);
      e.SetAmount(details.amount);
      e.SetDonationType(details.donationType);
      e.SetLocation(details.location);
      e.SetStatus(details.status);
      e.SetUrgency(details.urgency);
      e.SetScheduledDate(details.scheduledDate);
      e.SetCompletedDate(details.completedDate);
      var saved := donations.Update(k, e, now);
      r := Ok(saved);
    }

    /** `deleteDonation`: removes the row with that key, if there is one, and no other. */
    method DeleteDonation(id: int)
      requires Valid()
      modifies donations
      ensures Valid() && donations.nextId == old(donations.nextId)
      ensures forall d :: d in donations.rows <==> d in old(donations.rows) && d.id != Some(id)
      ensures FindById(donations.rows, id).None?
    {
      donations.DeleteById(id);
    }

    /** `getDonationById`. */
    function GetDonationById(id: int): (r: Option<DonationRow>)
      reads this, donations
      ensures r.Some? <==> exists d :: d in donations.rows && d.id == Some(id)
      ensures r.Some? ==> r.value in donations.rows && r.value.id == Some(id)
    {
      FindById(donations.rows, id)
    }

    /** `getCriticalPendingDonations`: exactly the critical donations that are still pending. */
    function GetCriticalPendingDonations(): (r: seq<DonationRow>)
      reads this, donations
      ensures forall d :: d in r <==> d in donations.rows && d.urgency == "critical" && d.status == "pending"
    {
      FindCriticalPendingDonations(donations.rows)
    }

    /** `getDonationsByUserId`: the donations the user gives or receives. */
    function GetDonationsByUserId(userId: int): (r: seq<DonationRow>)
      reads this, donations
      ensures forall d :: d in r <==> d in donations.rows && (DonorIs(d, userId) || SeekerIs(d, userId))
    {
      FindDonationsByUserId(donations.rows, userId)
    }
  }
}
