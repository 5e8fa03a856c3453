/** Looking up a month by its slug and choosing how its photos are shown. */
module MonthPage {
  import opened Optional

  /** One gallery entry; each part may be absent. */
  datatype Photo = Photo(src: Option<string>, alt: Option<string>, caption: Option<string>)

  /** One month record of the page's data: its display name, texts and photos. */
  datatype Month = Month(name: string, summary: Option<string>, notes: Option<string>,
                         photos: Option<seq<Photo>>)

  predicate IsUpper(c: char) { 'A' <= c <= 'Z' }

  /** `toLowerCase` on one character, over the Latin capitals. */
  function LowerChar(c: char): (l: char)
    ensures !IsUpper(l)
    ensures IsUpper(c) ==> l as int - c as int == 'a' as int - 'A' as int
    ensures !IsUpper(c) ==> l == c
  {
    if IsUpper(c) then (c as int - 'A' as int + 'a' as int) as char else c
  }

  /** `slugify`: the name lower-cased, character by character, with its length kept. */
  function Slugify(name: string): (slug: string)
    ensures |slug| == |name|
    ensures forall i :: 0 <= i < |name| ==> slug[i] == LowerChar(name[i])
    ensures forall i :: 0 <= i < |slug| ==> !IsUpper(slug[i])
  {
    if name == [] then [] else [LowerChar(name[0])] + Slugify(name[1..])
  }

  /** A slug is already lower case: slugifying it again changes nothing. */
  lemma SlugifyIdempotent(name: string)
    ensures Slugify(Slugify(name)) == Slugify(name)
  {
    var s := Slugify(name);
    assert forall i :: 0 <= i < |s| ==> Slugify(s)[i] == s[i];
  }

  /** The position of the first month whose slug is `slug`, or |months| when there is none. */
  function FirstMatch(months: seq<Month>, slug: string): (k: nat)
    ensures k <= |months|
    ensures forall j :: 0 <= j < k ==> Slugify(months[j].name) != slug
    ensures k < |months| ==> Slugify(months[k].name) == slug
  {
    if months == [] then 0
    else if Slugify(months[0].name) == slug then 0
    else 1 + FirstMatch(months[1..], slug)
  }

  /**
   * `getMonthData`: the first month whose slugified name equals the
   * slugified target, or nothing when no month matches.
   */
  function GetMonthData(months: seq<Month>, target: string): (m: Option<Month>)
    ensures m.None? <==> forall i :: 0 <= i < |months| ==> Slugify(months[i].name) != Slugify(target)
    ensures m.Some? ==> exists i :: (0 <= i < |months| && months[i] == m.value &&
                                     Slugify(months[i].name) == Slugify(target) &&
                                     forall j :: 0 <= j < i ==> Slugify(months[j].name) != Slugify(target))
  {
    var k := FirstMatch(months, Slugify(target));
    if k < |months| then Some(months[k]) else None
  }

  /** The lookup ignores case: asking with the target's slug gives the same answer. */
  lemma GetMonthDataIgnoresCase(months: seq<Month>, target: string)
    ensures GetMonthData(months, Slugify(target)) == GetMonthData(months, target)
  {
    SlugifyIdempotent(target);
  }

  /** Every month is found under its own name, or an earlier month with the same slug is. */
  lemma GetMonthDataFindsOwnName(months: seq<Month>, i: nat)
    requires i < |months|
    ensures var m := GetMonthData(months, months[i].name);
      m.Some? && Slugify(m.value.name) == Slugify(months[i].name)
  {
  }

  /** The text of the placeholder shown for a month without photos. */
  const NO_PHOTOS: string := "No photos yet"

  /** What `renderPhotos` shows: the placeholder, or a gallery of figures. */
  datatype PhotosView = Placeholder(text: string) | Gallery(figures: seq<Photo>)

  /**
   * `renderPhotos(list = [])`: a missing list defaults to the empty one, and
   * an empty list yields only the placeholder; otherwise one figure per photo.
   */
  function RenderPhotos(list: Option<seq<Photo>>): (v: PhotosView)
    ensures v.Placeholder? <==> list == None || list == Some([])
    ensures v.Placeholder? ==> v.text == NO_PHOTOS
    ensures v.Gallery? ==> list == Some(v.figures) && |v.figures| > 0
  {
    var photos := if list.None? then [] else list.value;
    if |photos| == 0 then Placeholder(NO_PHOTOS) else Gallery(photos)
  }
}
