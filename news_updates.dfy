/** The news panel: five fixed articles stamped relative to the moment
    they are fetched, a "time ago" label per article, and a badge colour
    per category. Clock readings are explicit millisecond parameters. */
module NewsUpdates {
  import opened Common

  datatype NewsItem = NewsItem(id: int, title: string, timestamp: int, category: string, urgent: bool)

  const MinuteMillis := 60 * 1000
  const HourMillis := 60 * 60 * 1000
  const RefreshMillis := 30 * 60 * 1000

  /** The articles a fetch at time `now` produces: 2, 6, 12, 18 and 24 hours old. */
  function MockNews(now: int): (news: seq<NewsItem>)
    ensures |news| == 5
    ensures forall k :: 0 <= k < 5 ==> news[k].id == k + 1
  {
    [
      NewsItem(1, "New Lutetium-177 Production Facility Opens in Europe", now - 2 * HourMillis, "Medical", false),
      NewsItem(2, "Space Mission Success: RTG Powers Mars Rover for 5+ Years", now - 6 * HourMillis, "Space", false),
      NewsItem(3, "Global Isotope Market Reaches $15.8 Billion", now - 12 * HourMillis, "Economics", true),
      NewsItem(4, "Food Irradiation Technology Prevents 2 Million Tons of Waste", now - 18 * HourMillis, "Agriculture", false),
      NewsItem(5, "Breakthrough in Technetium-99m Generator Technology", now - 24 * HourMillis, "Medical", true)
    ]
  }

  /** Whole minutes from `timestamp` to `now`, rounded down as `Math.floor` does. */
  function MinutesBetween(now: int, timestamp: int): (d: int)
    ensures MinuteMillis * d <= now - timestamp < MinuteMillis * (d + 1)
  {
    (now - timestamp) / MinuteMillis
  }

  /** An age in the unit the label uses. */
  datatype Age = Minutes(n: int) | Hours(n: int) | Days(n: int)

  /** The band an age of `d` minutes falls in, with the value shown in it. */
  function AgeOf(d: int): (a: Age)
    ensures d < 60 ==> a == Minutes(d)
    ensures 60 <= d < 24 * 60 ==> a.Hours? && 1 <= a.n <= 23 && 60 * a.n <= d < 60 * (a.n + 1)
    ensures d >= 24 * 60 ==> a.Days? && a.n >= 1 && 24 * 60 * a.n <= d < 24 * 60 * (a.n + 1)
  {
    if d < 60 then Minutes(d)
    else if d < 24 * 60 then Hours(d / 60)
    else Days(d / (24 * 60))
  }

  function UnitRank(a: Age): nat {
    match a
    case Minutes(_) => 0
    case Hours(_) => 1
    case Days(_) => 2
  }

  /** An older timestamp never gets a finer unit, nor a smaller value in the same unit. */
  lemma {:induction false} AgeMonotone(d1: int, d2: int)
    requires d1 <= d2
    ensures UnitRank(AgeOf(d1)) <= UnitRank(AgeOf(d2))
    ensures UnitRank(AgeOf(d1)) == UnitRank(AgeOf(d2)) ==> AgeOf(d1).n <= AgeOf(d2).n
  {
    var a1, a2 := AgeOf(d1), AgeOf(d2);
    if a1.Hours? && a2.Hours? {
      assert 60 * a1.n <= d1 <= d2 < 60 * (a2.n + 1);
    } else if a1.Days? && a2.Days? {
      assert 24 * 60 * a1.n <= d1 <= d2 < 24 * 60 * (a2.n + 1);
    }
  }

  function UnitChar(a: Age): char {
    match a
    case Minutes(_) => 'm'
    case Hours(_) => 'h'
    case Days(_) => 'd'
  }

  /** The label text: the value, the unit letter and " ago". */
  function Render(a: Age): (s: string)
    ensures |s| >= 6 && s[|s| - 4..] == " ago" && s[|s| - 5] == UnitChar(a)
    ensures s[..|s| - 5] == IntToString(a.n)
  {
    IntToString(a.n) + [UnitChar(a)] + " ago"
  }

  /** `getTimeAgo`: the label of an article stamped `timestamp`, read at `now`. */
  function GetTimeAgo(now: int, timestamp: int): (t: string)
    ensures |t| >= 6 && t[|t| - 4..] == " ago"
    ensures t[|t| - 5] == 'm' <==> MinutesBetween(now, timestamp) < 60
    ensures t[|t| - 5] == 'h' <==> 60 <= MinutesBetween(now, timestamp) < 24 * 60
    ensures t[|t| - 5] == 'd' <==> MinutesBetween(now, timestamp) >= 24 * 60
  {
    Render(AgeOf(MinutesBetween(now, timestamp)))
  }

  /** Reads a label back into its age; only labels of non-negative ages are accepted. */
  function ParseTimeAgo(s: string): (r: Option<Age>)
    ensures r.Some? ==> |s| >= 6 && s[|s| - 4..] == " ago" && s[|s| - 5] == UnitChar(r.value)
    ensures r.Some? ==> r.value.n >= 0 && forall i :: 0 <= i < |s| - 5 ==> IsDigit(s[i])
  {
    if |s| < 6 || s[|s| - 4..] != " ago" then None
    else
      var digits := s[..|s| - 5];
      if !(forall i :: 0 <= i < |digits| ==> IsDigit(digits[i])) then None
      else
        var n := ParseDigits(digits);
        match s[|s| - 5]
        case 'm' => Some(Minutes(n))
        case 'h' => Some(Hours(n))
        case 'd' => Some(Days(n))
        case _ => None
  }

  /** The label of a timestamp in the past names its age exactly: reading it
      back gives the band and the value it was made from. */
  lemma {:induction false} TimeAgoRoundTrip(now: int, timestamp: int)
    requires timestamp <= now
    ensures ParseTimeAgo(GetTimeAgo(now, timestamp)) == Some(AgeOf(MinutesBetween(now, timestamp)))
  {
    var a := AgeOf(MinutesBetween(now, timestamp));
    assert a.n >= 0;
    ParseNatToString(a.n);
  }

  /** Exactly one day ago is labelled in days, not as 24 hours. */
  lemma {:induction false} OneDayIsOneDay(now: int)
    ensures GetTimeAgo(now, now - 24 * HourMillis) == "1d ago"
  {
    assert MinutesBetween(now, now - 24 * HourMillis) == 24 * 60;
  }

  /** A timestamp ahead of the clock falls in the minutes band with a negative value. */
  lemma {:induction false} FutureTimestampInMinutes(now: int, timestamp: int)
    requires timestamp > now
    ensures AgeOf(MinutesBetween(now, timestamp)).Minutes?
    ensures AgeOf(MinutesBetween(now, timestamp)).n < 0
  {
  }

  /** Half a minute ahead of the clock is rounded down to minus one minute. */
  lemma {:induction false} HalfMinuteAheadLabel(now: int)
    ensures GetTimeAgo(now, now + 30 * 1000) == "-1m ago"
  {
    assert MinutesBetween(now, now + 30 * 1000) == -1;
  }

  /** An article `h` whole hours old, for `h` below a day, is labelled "{h}h ago". */
  lemma {:induction false} HoursAgoLabel(now: int, h: nat)
    requires 1 <= h <= 23
    ensures GetTimeAgo(now, now - h * HourMillis) == NatToString(h) + "h ago"
  {
    assert now - (now - h * HourMillis) == MinuteMillis * (60 * h);
    assert MinutesBetween(now, now - h * HourMillis) == 60 * h;
    assert AgeOf(60 * h) == Hours(h);
  }

  /** The label shown beside each article of `news`, read at `now`. */
  function Labels(now: int, news: seq<NewsItem>): (labels: seq<string>)
    ensures |labels| == |news|
    ensures forall k :: 0 <= k < |news| ==> labels[k] == GetTimeAgo(now, news[k].timestamp)
  {
    seq(|news|, k requires 0 <= k < |news| => GetTimeAgo(now, news[k].timestamp))
  }

  /** The ages of the five articles at the moment of their fetch. */
  const FetchedAges: seq<Age> := [Hours(2), Hours(6), Hours(12), Hours(18), Days(1)]

  lemma {:induction false} MockNewsAges(now: int)
    ensures forall k :: 0 <= k < 5 ==> AgeOf(MinutesBetween(now, MockNews(now)[k].timestamp)) == FetchedAges[k]
  {
  }

  /** The labels of the five fetched ages. */
  const FreshLabelTexts: seq<string> := ["2h ago", "6h ago", "12h ago", "18h ago", "1d ago"]

  lemma {:induction false} FetchedAgeLabel(k: nat)
    requires k < 5
    ensures Render(FetchedAges[k]) == FreshLabelTexts[k]
  {
    if k == 0 {
      assert Render(Hours(2)) == "2h ago";
    } else if k == 1 {
      assert Render(Hours(6)) == "6h ago";
    } else if k == 2 {
      assert Render(Hours(12)) == "12h ago";
    } else if k == 3 {
      assert Render(Hours(18)) == "18h ago";
    } else {
      assert Render(Days(1)) == "1d ago";
    }
  }

  /** Read at the moment of the fetch, whatever that moment is, the five
      articles are labelled 2h, 6h, 12h, 18h and 1d ago. */
  lemma {:induction false} FreshLabels(now: int)
    ensures Labels(now, MockNews(now)) == ["2h ago", "6h ago", "12h ago", "18h ago", "1d ago"]
  {
    var news := MockNews(now);
    var labels := Labels(now, news);
    MockNewsAges(now);
    forall k | 0 <= k < 5 ensures labels[k] == FreshLabelTexts[k] {
      FetchedAgeLabel(k);
    }
    assert labels == FreshLabelTexts;
  }

  /** `getCategoryColor`: five categories with their own badge, grey otherwise. */
  function GetCategoryColor(category: string): (classes: string)
    ensures category !in {"Medical", "Space", "Economics", "Agriculture", "Industry"} ==>
      classes == "bg-gray-100 text-gray-800"
  {
    if category == "Medical" then "bg-red-100 text-red-800"
    else if category == "Space" then "bg-purple-100 text-purple-800"
    else if category == "Economics" then "bg-green-100 text-green-800"
    else if category == "Agriculture" then "bg-yellow-100 text-yellow-800"
    else if category == "Industry" then "bg-blue-100 text-blue-800"
    else "bg-gray-100 text-gray-800"
  }

  /** The sixth character of a known category's badge, which tells the five apart. */
  lemma {:induction false} BadgeMark(c: string) returns (m: char)
    requires c in {"Medical", "Space", "Economics", "Agriculture", "Industry"}
    ensures |GetCategoryColor(c)| > 5 && GetCategoryColor(c)[5] == m && m != 'a'
    ensures m == 'd' ==> c == "Medical"
    ensures m == 'r' ==> c == "Space"
    ensures m == 'e' ==> c == "Economics"
    ensures m == 'l' ==> c == "Agriculture"
    ensures m == 'u' ==> c == "Industry"
    ensures m in "drelu"
  {
    if c == "Medical" {
      m := 'd';
    } else if c == "Space" {
      m := 'r';
    } else if c == "Economics" {
      m := 'e';
    } else if c == "Agriculture" {
      m := 'l';
    } else {
      m := 'u';
    }
  }

  /** The five known categories have five distinct badges, none of them the grey default. */
  lemma {:induction false} CategoryColorsDistinct(a: string, b: string)
    requires a in {"Medical", "Space", "Economics", "Agriculture", "Industry"}
    requires b in {"Medical", "Space", "Economics", "Agriculture", "Industry"}
    requires a != b
    ensures GetCategoryColor(a) != GetCategoryColor(b)
    ensures GetCategoryColor(a) != "bg-gray-100 text-gray-800"
  {
    var ma := BadgeMark(a);
    var mb := BadgeMark(b);
    assert ma != mb;
  }

  /** The left border: red for urgent articles, blue otherwise. */
  function BorderClass(item: NewsItem): (classes: string)
    ensures item.urgent <==> classes == "border-red-500"
  {
    if item.urgent then "border-red-500" else "border-blue-500"
  }

  /** The panel: the fetched articles and the loading flag. */
  class NewsFeed {
    var news: seq<NewsItem>
    var loading: bool

    constructor ()
      ensures news == [] && loading
    {
      news := [];
      loading := true;
    }

    /** `fetchNews` at time `now`, run on mount and every thirty minutes after. */
    method FetchNews(now: int)
      modifies this
      ensures news == MockNews(now) && !loading
    {
      news := MockNews(now);
      loading := false;
    }

    /** The placeholder skeleton is shown until the first fetch. */
    predicate ShowsSkeleton()
      reads this
    {
      loading
    }
  }

  /** Mounting fetches at once; a refresh thirty minutes later restamps the
      articles, so read at its own fetch time every label is as fresh as
      before, and the skeleton is gone. */
  method MountAndRefresh(now: int) returns (first: seq<string>, second: seq<string>, skeleton: bool)
    ensures first == second == ["2h ago", "6h ago", "12h ago", "18h ago", "1d ago"]
    ensures !skeleton
  {
    var feed := new NewsFeed();
    feed.FetchNews(now);
    FreshLabels(now);
    first := Labels(now, feed.news);
    var later := now + RefreshMillis;
    feed.FetchNews(later);
    FreshLabels(later);
    second := Labels(later, feed.news);
    skeleton := feed.ShowsSkeleton();
  }
}
