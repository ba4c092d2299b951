/**
 * The feed page: offset paging of posts and the relative age shown beside
 * each post. Times are integer milliseconds since the epoch; the clock
 * reading `now` is a parameter.
 */
module Home {
  import opened Wrappers
  import opened Http
  import opened Text

  const PageSize := 10
  const MsPerHour := 3_600_000
  const MsPerDay := 24 * MsPerHour

  datatype Post = Post(id: int, likesCount: Option<int>, createdAtMs: int)

  /** `post.likes_count || 0`: a missing count is shown as 0. */
  function LikesShown(post: Post): (n: int)
    ensures post.likesCount.None? ==> n == 0
    ensures post.likesCount.Some? ==> n == post.likesCount.value
  {
    match post.likesCount
    case None => 0
    case Some(k) => k
  }

  /** The age buckets of `formatDate`; `OlderThanAWeek` is rendered by the locale, not modelled. */
  datatype Age = FewMinutes | Hours(hours: nat) | Days(days: nat) | OlderThanAWeek

  /**
   * The bucket for a post created at `date` seen at `now`, computed as the
   * page does it (whole hours by floor division, then whole days of those
   * hours), and characterised directly by the elapsed milliseconds.
   */
  function AgeOf(now: int, date: int): (a: Age)
    ensures a == FewMinutes <==> now - date < MsPerHour
    ensures a.Hours? <==> MsPerHour <= now - date < MsPerDay
    ensures a.Days? <==> MsPerDay <= now - date < 7 * MsPerDay
    ensures a == OlderThanAWeek <==> 7 * MsPerDay <= now - date
    ensures a.Hours? ==>
      1 <= a.hours < 24 && a.hours * MsPerHour <= now - date < (a.hours + 1) * MsPerHour
    ensures a.Days? ==>
      1 <= a.days < 7 && a.days * MsPerDay <= now - date < (a.days + 1) * MsPerDay
  {
    var hours := (now - date) / MsPerHour;
    if hours < 1 then FewMinutes
    else if hours < 24 then Hours(hours)
    else
      var days := hours / 24;
      DaysOfHours(now - date);
      if days < 7 then Days(days) else OlderThanAWeek
  }

  /** Whole days of whole hours are whole days: floor(floor(ms / hour) / 24) == floor(ms / day). */
  lemma DaysOfHours(ms: int)
    ensures (ms / MsPerHour) / 24 == ms / MsPerDay
  {
    var h := ms / MsPerHour;
    var d := h / 24;
    assert h * MsPerHour <= ms < (h + 1) * MsPerHour;
    assert d * 24 <= h < (d + 1) * 24;
    assert d * MsPerDay <= h * MsPerHour;
    assert (h + 1) * MsPerHour <= (d + 1) * MsPerDay;
  }

  /** What `formatDate` returns: a Spanish phrase, or the creation date in the 'es-ES' long format. */
  datatype DateText = Phrase(text: string) | LocaleDate(dateMs: int)

  function Describe(a: Age, date: int): (t: DateText)
    ensures t.LocaleDate? <==> a == OlderThanAWeek
  {
    match a
    case FewMinutes => Phrase("Hace unos minutos")
    case Hours(h) => Phrase("Hace " + Decimal(h) + " horas")
    case Days(d) => Phrase("Hace " + Decimal(d) + " días")
    case OlderThanAWeek => LocaleDate(date)
  }

  /** `formatDate(created_at)` at time `now`. */
  function FormatDate(now: int, date: int): (t: DateText)
    ensures now - date < MsPerHour ==> t == Phrase("Hace unos minutos")
    ensures MsPerHour <= now - date < MsPerDay ==>
      t == Phrase("Hace " + Decimal((now - date) / MsPerHour) + " horas")
    ensures MsPerDay <= now - date < 7 * MsPerDay ==>
      t == Phrase("Hace " + Decimal((now - date) / MsPerDay) + " días")
    ensures t.LocaleDate? <==> 7 * MsPerDay <= now - date
    ensures t.LocaleDate? ==> t.dateMs == date
  {
    Describe(AgeOf(now, date), date)
  }

  /** The third character from the end tells the three phrases apart: 't' (minutos), 'r' (horas), 'í' (días). */
  lemma PhraseMark(a: Age, date: int)
    requires a != OlderThanAWeek
    ensures Describe(a, date).Phrase?
    ensures var s := Describe(a, date).text;
      |s| >= 3 && s[|s| - 3] == match a case FewMinutes => 't' case Hours(_) => 'r' case _ => 'í'
  {
  }

  /** The phrases never collide: the text shown names the bucket, and so the hour or day count, it came from. */
  lemma DescribeInjective(a: Age, b: Age, date: int)
    requires a != OlderThanAWeek && b != OlderThanAWeek
    ensures Describe(a, date) == Describe(b, date) ==> a == b
  {
    PhraseMark(a, date);
    PhraseMark(b, date);
    var s, t := Describe(a, date).text, Describe(b, date).text;
    if s == t {
      if a.Hours? && b.Hours? {
        assert Decimal(a.hours) == s[5..|s| - 6];
        assert Decimal(b.hours) == t[5..|t| - 6];
        DecimalInjective(a.hours, b.hours);
      } else if a.Days? && b.Days? {
        assert Decimal(a.days) == s[5..|s| - 5];
        assert Decimal(b.days) == t[5..|t| - 5];
        DecimalInjective(a.days, b.days);
      }
    }
  }

  /** Whether the "load more" button is rendered: only for a non-empty feed that the server says continues. */
  predicate ShowLoadMore(hasMore: bool, count: nat)
    ensures ShowLoadMore(hasMore, count) ==> hasMore
    ensures count == 0 ==> !ShowLoadMore(hasMore, count)
  {
    hasMore && count > 0
  }

  class HomePage {
    var posts: seq<Post>
    var loading: bool
    var hasMore: bool
    var offset: nat

    /** The offset of the next page is the number of posts already listed. */
    predicate OffsetTracksList()
      reads this
    {
      offset == |posts|
    }

    predicate LoadMoreShown()
      reads this
      ensures LoadMoreShown() ==> hasMore && posts != []
    {
      ShowLoadMore(hasMore, |posts|)
    }

    constructor ()
      ensures posts == [] && loading && hasMore && offset == 0
      ensures OffsetTracksList()
    {
      posts, loading, hasMore, offset := [], true, true, 0;
    }

    /**
     * `fetchPosts(loadMore)`: GET /api/posts?limit=`PageSize`&offset=`requestOffset`.
     * A first page replaces the list, a further page is appended after it;
     * on failure the list, `offset` and `hasMore` stay; `loading` always ends
     * false (it is never raised here).
     */
    method FetchPosts(loadMore: bool, reply: Reply<Page<Post>>) returns (requestOffset: nat)
      modifies this`posts, this`loading, this`hasMore, this`offset
      ensures requestOffset == if loadMore then old(offset) else 0
      ensures !loading
      ensures reply.Ok? ==> posts == (if loadMore then old(posts) else []) + reply.value.items
      ensures reply.Ok? ==> hasMore == reply.value.hasMore
      ensures reply.Ok? ==> offset == requestOffset + |reply.value.items|
      ensures reply.Ok? ==> (LoadMoreShown() <==> reply.value.hasMore && posts != [])
      ensures reply.Ok? && !loadMore && reply.value.items == [] ==> !LoadMoreShown()
      ensures reply.Err? ==> posts == old(posts) && hasMore == old(hasMore) && offset == old(offset)
      ensures (loadMore ==> old(OffsetTracksList())) && (reply.Err? ==> old(OffsetTracksList())) ==>
        OffsetTracksList()
    {
      requestOffset := if loadMore then offset else 0;
      match reply {
        case Ok(page) =>
          if loadMore {
            posts := posts + page.items;
          } else {
            posts := page.items;
          }
          hasMore := page.hasMore;
          offset := requestOffset + |page.items|;
        case Err(_) =>
      }
      loading := false;
    }
  }
}
