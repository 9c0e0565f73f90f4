/** The client's job card: days left before the deadline, the expired and
    urgent flags derived from it, and the normalised application link. */
module JobCard {
  import opened Base
  import opened Text
  import opened JobModel

  /** Milliseconds in a day. */
  const MsPerDay: int := 1000 * 60 * 60 * 24

  /** `Math.ceil((deadline - now) / MsPerDay)`: whole days left, rounded up. */
  function DaysRemaining(deadline: int, now: int): (days: int)
    ensures (days - 1) * MsPerDay < deadline - now <= days * MsPerDay
  {
    var diff := deadline - now;
    if diff % MsPerDay == 0 then diff / MsPerDay else diff / MsPerDay + 1
  }

  /** The card's `isExpired`: fewer than zero days left. */
  predicate CardExpired(deadline: int, now: int) {
    DaysRemaining(deadline, now) < 0
  }

  /** The card's `isUrgent`: between zero and three days left. */
  predicate CardUrgent(deadline: int, now: int) {
    0 <= DaysRemaining(deadline, now) <= 3
  }

  /** The Apply button is shown. */
  predicate ShowsApply(deadline: int, now: int) {
    !CardExpired(deadline, now)
  }

  /** The card calls a job expired only once its deadline is at least a
      full day past. */
  lemma CardExpiredIff(deadline: int, now: int)
    ensures CardExpired(deadline, now) <==> deadline - now <= -MsPerDay
  {
  }

  /** Urgent means the deadline is less than a day past or at most three
      days ahead. */
  lemma CardUrgentIff(deadline: int, now: int)
    ensures CardUrgent(deadline, now) <==> -MsPerDay < deadline - now <= 3 * MsPerDay
  {
  }

  /** A card is never both expired and urgent. */
  lemma FlagsExclusive(deadline: int, now: int)
    ensures !(CardExpired(deadline, now) && CardUrgent(deadline, now))
  {
  }

  /** The card's notion is stricter than the schema's `isExpired`: every
      card-expired job is expired, but a job one hour past its deadline is
      expired and still shows its Apply button. */
  lemma CardVersusSchemaExpiry(job: Job, now: int)
    ensures CardExpired(job.registrationDeadline, now) ==> IsExpired(job, now)
    ensures now == job.registrationDeadline + 3600000 ==>
      IsExpired(job, now) && ShowsApply(job.registrationDeadline, now)
  {
  }

  /** `formatVerificationLink(link)`. */
  function FormatVerificationLink(link: Option<string>): (r: string)
    ensures link.None? || link.value == "" ==> r == "#"
    ensures link.Some? && link.value != "" ==>
      if StartsWith(link.value, "http://") || StartsWith(link.value, "https://") then r == link.value
      else r == "https://" + link.value
  {
    if link.None? || link.value == "" then "#"
    else if StartsWith(link.value, "http://") || StartsWith(link.value, "https://") then link.value
    else "https://" + link.value
  }

  /** Every formatted link is the placeholder or an http(s) address. */
  lemma FormattedIsHttp(link: Option<string>)
    ensures var r := FormatVerificationLink(link);
      r == "#" || StartsWith(r, "http://") || StartsWith(r, "https://")
  {
    if link.Some? && link.value != "" {
      var l := link.value;
      if !(StartsWith(l, "http://") || StartsWith(l, "https://")) {
        assert ("https://" + l)[..8] == "https://";
      }
    }
  }

  /** Formatting a non-empty link twice is formatting it once. */
  lemma FormatIdempotent(link: string)
    requires link != ""
    ensures FormatVerificationLink(Some(FormatVerificationLink(Some(link)))) == FormatVerificationLink(Some(link))
  {
    FormattedIsHttp(Some(link));
  }
}
