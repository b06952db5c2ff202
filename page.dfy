/**
 * The page logic that sits on top of the store (script.js:125-185): the
 * username cut to 20 characters and templated into the question and the
 * success message, and the counter behind the No button.
 */
module Page {
  import opened Wrappers
  import opened TemplateEngine
  import opened Store

  /** `value.substring(0, 20)`: at most the first 20 characters of the name. */
  function Truncate(name: string): (r: string)
    ensures |r| <= 20 && r <= name
    ensures |name| <= 20 ==> r == name
    ensures |name| > 20 ==> |r| == 20
  {
    if |name| <= 20 then name else name[..20]
  }

  /**
   * `i18n.template(tpl, { username })` with the truncated name: the question
   * (script.js:128-131) and the success message (script.js:182, 185).
   */
  function Greeting(tpl: string, rawName: string): string {
    Template(tpl, map["username" := Truncate(rawName)])
  }

  /** A template with one `{username}` slot between brace-free text shows the truncated name there. */
  lemma GreetingInsertsName(before: string, after: string, rawName: string)
    requires '{' !in before && '{' !in after
    ensures Greeting(before + ("{username}" + after), rawName) == before + (Truncate(rawName) + after)
  {
    var data := map["username" := Truncate(rawName)];
    assert IsWord("username") by {
      forall i | 0 <= i < |"username"| ensures IsWordChar("username"[i]) { }
    }
    TemplateSlot(before, "username", after, data);
    assert "{username}" + after == "{" + ("username" + ("}" + after));
  }

  const Shocked := "assets/images/shocked.webp"
  const Think := "assets/images/think.webp"
  const Angry := "assets/images/angry.webp"
  const Crying := "assets/images/crying.webp"

  /** The image for a click count: the map for 1 to 4, crying from 5 on, none for 0. */
  function ImageFor(count: nat): (r: Option<string>)
    ensures r.None? <==> count == 0
    ensures count == 1 ==> r == Some(Shocked)
    ensures count == 2 ==> r == Some(Think)
    ensures count == 3 ==> r == Some(Angry)
    ensures count >= 4 ==> r == Some(Crying)
  {
    if count == 1 then Some(Shocked)
    else if count == 2 then Some(Think)
    else if count == 3 then Some(Angry)
    else if count == 4 then Some(Crying)
    else if count >= 5 then Some(Crying)
    else None
  }

  /** `noTexts.length`: the number of strings in a list, of characters in a string. */
  function Size(v: Value): nat {
    match v
    case Str(s) => |s|
    case List(items) => |items|
  }

  /**
   * The new No-button label after click `count`, if any:
   * `noTexts[count - 1]` when `noTexts` is truthy and `count <= noTexts.length`.
   * Indexing a string entry yields a one-character string.
   */
  function NoLabel(t: map<string, Value>, count: nat): (r: Option<string>)
    requires count >= 1
    ensures r.Some? <==> "noTexts" in t && Truthy(t["noTexts"]) && count <= Size(t["noTexts"])
    ensures "noTexts" in t && t["noTexts"].List? && count <= Size(t["noTexts"]) ==>
              r == Some(t["noTexts"].items[count - 1])
    ensures "noTexts" in t && t["noTexts"].Str? && count <= Size(t["noTexts"]) ==>
              r == Some([t["noTexts"].s[count - 1]])
  {
    if "noTexts" in t && Truthy(t["noTexts"]) && count <= Size(t["noTexts"]) then
      match t["noTexts"]
      case Str(s) => Some([s[count - 1]])
      case List(items) => Some(items[count - 1])
    else None
  }

  /** The label shown after `n` clicks under a fixed table, starting from `initial`. */
  function LabelAfter(t: map<string, Value>, initial: string, n: nat): string {
    if n == 0 then initial else NoLabel(t, n).GetOr(LabelAfter(t, initial, n - 1))
  }

  /**
   * With a non-empty `noTexts` list, the label walks through the list one
   * click at a time and then stays on its last entry.
   */
  lemma {:induction false} LabelSticksAtLast(t: map<string, Value>, initial: string, n: nat)
    requires "noTexts" in t && t["noTexts"].List? && |t["noTexts"].items| > 0
    ensures var items := t["noTexts"].items;
            LabelAfter(t, initial, n) == if n == 0 then initial
                                         else if n <= |items| then items[n - 1]
                                         else items[|items| - 1]
  {
    if n > |t["noTexts"].items| {
      LabelSticksAtLast(t, initial, n - 1);
    }
  }

  /** The No button, the image and the question as the click handler changes them. */
  class NoButton {
    /** `clickCount`, the closure variable of the handler. */
    var clickCount: nat
    /** The No button's `innerText`. */
    var noText: string
    /** The main image's `src`. */
    var image: string
    /** The No button's `translateX`, in pixels. */
    var noOffset: int
    /** How far the image and the question are moved up, in pixels. */
    var moveUp: int

    /** The offsets follow the count, and once clicked the image is the count's image. */
    ghost predicate Valid()
      reads this
    {
      && noOffset == 50 * clickCount
      && moveUp == 25 * clickCount
      && (clickCount >= 1 ==> image == ImageFor(clickCount).value)
    }

    /** Before the first click: count 0, no offsets, the page's own label and image. */
    constructor (initialLabel: string, initialImage: string)
      ensures Valid()
      ensures clickCount == 0 && noText == initialLabel && image == initialImage
    {
      clickCount, noText, image := 0, initialLabel, initialImage;
      noOffset, moveUp := 0, 0;
    }

    /** One click on No, reading `noTexts` from the current translation table `t`. */
    method Click(t: map<string, Value>)
      requires Valid()
      modifies this
      ensures Valid()
      ensures clickCount == old(clickCount) + 1
      ensures noOffset == 50 * clickCount && moveUp == 25 * clickCount
      ensures noText == NoLabel(t, clickCount).GetOr(old(noText))
      ensures image == ImageFor(clickCount).value
      ensures clickCount >= 4 ==> image == Crying
    {
      clickCount := clickCount + 1;
      noOffset := clickCount * 50;
      moveUp := clickCount * 25;
      var next := NoLabel(t, clickCount);
      if next.Some? {
        noText := next.value;
      }
      image := ImageFor(clickCount).value;
    }
  }
}
