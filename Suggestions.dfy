/**
 * The suggestion normaliser of src/app/action.tsx: provider records mapped to
 * uniform "bubble_option" items. Every provider field may be missing, so each
 * is an Option.
 */
module Suggestions {
  import opened Wrappers

  /** The type tag of every normalised item. */
  const BUBBLE_OPTION := "bubble_option"

  /** The separator `categories.map(...).join` uses. */
  const CATEGORY_SEPARATOR := ", "

  /** One element of a local-search response's `local_results` (the fields the normaliser reads). */
  datatype LocalResult = LocalResult(
    title: Option<string>,
    placeId: Option<string>,
    price: Option<string>,
    rating: Option<real>,
    reviews: Option<int>,
    hours: Option<string>)

  /** One entry of a Yelp result's `categories`. */
  datatype Category = Category(title: Option<string>)

  /** One element of a Yelp response's `organic_results` (the fields the normaliser reads). */
  datatype OrganicResult = OrganicResult(
    title: Option<string>,
    placeIds: Option<seq<string>>,
    price: Option<string>,
    rating: Option<real>,
    reviews: Option<int>,
    categories: Option<seq<Category>>,
    neighborhoods: Option<string>,
    phone: Option<string>,
    snippet: Option<string>,
    serviceOptions: Option<map<string, bool>>,
    thumbnail: Option<string>)

  /**
   * A normalised item. A Google item leaves the Yelp-only fields absent and a
   * Yelp item leaves `hours` and `placeId` absent, as the object literals do.
   */
  datatype BubbleOption = BubbleOption(
    kind: string,
    title: Option<string>,
    value: Option<string>,
    price: Option<string>,
    rating: Option<real>,
    reviews: Option<int>,
    hours: Option<string>,
    placeId: Option<string>,
    categories: Option<string>,
    neighborhoods: Option<string>,
    phone: Option<string>,
    snippet: Option<string>,
    serviceOptions: Option<map<string, bool>>,
    thumbnail: Option<string>)

  /** The item appended for one Google result. */
  function FromLocal(s: LocalResult): BubbleOption
  {
    BubbleOption(BUBBLE_OPTION, s.title, s.placeId, s.price, s.rating, s.reviews, s.hours, s.placeId,
                 None, None, None, None, None, None)
  }

  /** The first place identifier, absent when the list is missing or empty. */
  function FirstPlaceId(ids: Option<seq<string>>): Option<string>
  {
    if ids.Some? && |ids.value| > 0 then Some(ids.value[0]) else None
  }

  /** `array.join(sep)`: the parts with `sep` between neighbours, "" for no parts. */
  function Join(parts: seq<string>, sep: string): string
  {
    if |parts| == 0 then ""
    else if |parts| == 1 then parts[0]
    else parts[0] + sep + Join(parts[1..], sep)
  }

  /** The title of each category, in order; joining renders a missing title as "". */
  function CategoryTitles(cats: seq<Category>): seq<string>
  {
    if cats == [] then [] else [cats[0].title.GetOr("")] + CategoryTitles(cats[1..])
  }

  /** The joined category titles, absent when the categories are missing. */
  function CategoryLabel(cats: Option<seq<Category>>): Option<string>
  {
    if cats.None? then None else Some(Join(CategoryTitles(cats.value), CATEGORY_SEPARATOR))
  }

  /** The item appended for one Yelp result. */
  function FromOrganic(s: OrganicResult): BubbleOption
  {
    BubbleOption(BUBBLE_OPTION, s.title, FirstPlaceId(s.placeIds), s.price, s.rating, s.reviews,
                 None, None, CategoryLabel(s.categories), s.neighborhoods, s.phone, s.snippet,
                 s.serviceOptions, s.thumbnail)
  }

  /** The items the Google loop appends for `local_results`, one per result. */
  function LocalItems(rs: seq<LocalResult>): seq<BubbleOption>
  {
    if rs == [] then [] else [FromLocal(rs[0])] + LocalItems(rs[1..])
  }

  /** The items the Yelp loop appends for `organic_results`, one per result. */
  function OrganicItems(rs: seq<OrganicResult>): seq<BubbleOption>
  {
    if rs == [] then [] else [FromOrganic(rs[0])] + OrganicItems(rs[1..])
  }

  lemma {:induction false} LocalItemsSnoc(rs: seq<LocalResult>, r: LocalResult)
    ensures LocalItems(rs + [r]) == LocalItems(rs) + [FromLocal(r)]
  {
    if rs != [] {
      assert (rs + [r])[1..] == rs[1..] + [r];
      LocalItemsSnoc(rs[1..], r);
    }
  }

  lemma {:induction false} OrganicItemsSnoc(rs: seq<OrganicResult>, r: OrganicResult)
    ensures OrganicItems(rs + [r]) == OrganicItems(rs) + [FromOrganic(r)]
  {
    if rs != [] {
      assert (rs + [r])[1..] == rs[1..] + [r];
      OrganicItemsSnoc(rs[1..], r);
    }
  }

  /**
   * The Google path makes one item per result, in order: tagged
   * "bubble_option", with `value` and `place_id` both the result's place id,
   * and title, price, rating, reviews and hours copied unchanged.
   */
  lemma {:induction false} LocalItemsAt(rs: seq<LocalResult>, k: nat)
    requires k < |rs|
    ensures |LocalItems(rs)| == |rs|
    ensures var item := LocalItems(rs)[k];
      && item.kind == BUBBLE_OPTION
      && item.value == rs[k].placeId && item.placeId == rs[k].placeId
      && item.title == rs[k].title && item.price == rs[k].price
      && item.rating == rs[k].rating && item.reviews == rs[k].reviews
      && item.hours == rs[k].hours
      && item.categories.None? && item.neighborhoods.None? && item.phone.None?
      && item.snippet.None? && item.serviceOptions.None? && item.thumbnail.None?
  {
    if k > 0 {
      LocalItemsAt(rs[1..], k - 1);
    } else if |rs| > 1 {
      LocalItemsAt(rs[1..], 0);
    }
  }

  /**
   * The Yelp path makes one item per result, in order: tagged
   * "bubble_option", `value` the first place id (absent when the list is
   * missing or empty), `categories` the joined titles (absent when the
   * categories are missing), no hours, the other fields copied unchanged.
   */
  lemma {:induction false} OrganicItemsAt(rs: seq<OrganicResult>, k: nat)
    requires k < |rs|
    ensures |OrganicItems(rs)| == |rs|
    ensures var item := OrganicItems(rs)[k];
      && item.kind == BUBBLE_OPTION
      && item.value == (if rs[k].placeIds.Some? && |rs[k].placeIds.value| > 0
                        then Some(rs[k].placeIds.value[0]) else None)
      && item.categories == (if rs[k].categories.None? then None
                             else Some(Join(CategoryTitles(rs[k].categories.value), ", ")))
      && item.title == rs[k].title && item.price == rs[k].price
      && item.rating == rs[k].rating && item.reviews == rs[k].reviews
      && item.neighborhoods == rs[k].neighborhoods && item.phone == rs[k].phone
      && item.snippet == rs[k].snippet && item.serviceOptions == rs[k].serviceOptions
      && item.thumbnail == rs[k].thumbnail
      && item.hours.None? && item.placeId.None?
  {
    if k > 0 {
      OrganicItemsAt(rs[1..], k - 1);
    } else if |rs| > 1 {
      OrganicItemsAt(rs[1..], 0);
    }
  }

  /** The category titles keep their number and order; a missing title becomes "". */
  lemma {:induction false} CategoryTitlesAt(cats: seq<Category>)
    ensures |CategoryTitles(cats)| == |cats|
    ensures forall k :: 0 <= k < |cats| ==> CategoryTitles(cats)[k] == cats[k].title.GetOr("")
  {
    if cats != [] {
      CategoryTitlesAt(cats[1..]);
    }
  }

  /** Joining two non-empty lists is joining each and putting the separator between. */
  lemma {:induction false} JoinAppend(a: seq<string>, b: seq<string>, sep: string)
    requires |a| > 0 && |b| > 0
    ensures Join(a + b, sep) == Join(a, sep) + sep + Join(b, sep)
  {
    if |a| == 1 {
      assert (a + b)[1..] == b;
    } else {
      assert (a + b)[1..] == a[1..] + b;
      JoinAppend(a[1..], b, sep);
    }
  }

  /** The sum of the lengths of `parts`. */
  function TotalLength(parts: seq<string>): nat
  {
    if parts == [] then 0 else |parts[0]| + TotalLength(parts[1..])
  }

  /** A join holds every part and one separator between each pair of neighbours, nothing else. */
  lemma {:induction false} JoinLength(parts: seq<string>, sep: string)
    requires |parts| > 0
    ensures |Join(parts, sep)| == TotalLength(parts) + (|parts| - 1) * |sep|
  {
    if |parts| > 1 {
      JoinLength(parts[1..], sep);
    } else {
      assert parts[1..] == [];
    }
  }

  /** An empty category list is labelled "". */
  lemma CategoryLabelEmpty()
    ensures CategoryLabel(Some([])) == Some("")
  {
  }

  lemma {:induction false} CategoryTitlesAppend(a: seq<Category>, b: seq<Category>)
    ensures CategoryTitles(a + b) == CategoryTitles(a) + CategoryTitles(b)
  {
    if a == [] {
      assert a + b == b;
    } else {
      assert (a + b)[0] == a[0];
      assert (a + b)[1..] == a[1..] + b;
      CategoryTitlesAppend(a[1..], b);
    }
  }

  /**
   * The label of two non-empty category lists put together is the label of
   * the first, ", " and the label of the second: titles keep their order.
   */
  lemma CategoryLabelAppend(a: seq<Category>, b: seq<Category>)
    requires |a| > 0 && |b| > 0
    ensures CategoryLabel(Some(a + b)) == Some(CategoryLabel(Some(a)).value + ", " + CategoryLabel(Some(b)).value)
  {
    CategoryTitlesAppend(a, b);
    CategoryTitlesAt(a);
    CategoryTitlesAt(b);
    JoinAppend(CategoryTitles(a), CategoryTitles(b), CATEGORY_SEPARATOR);
  }
}
