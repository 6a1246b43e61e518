/**
 * The two small decisions of the entry point's handlers that change the
 * page: the label of a submit button while a request is pending, and the
 * like button and like count of a card once a like or unlike request has
 * answered with the updated card.
 */
module Page {

  /** The like button's class while the current user likes the card. */
  const LikeActiveClass := "card__like-button_is-active"

  /** The label shown on a submit button while its request is pending. */
  const SavingLabel := "Сохранение..."

  /** An entry of a card's `likes` list: the user who likes it. */
  datatype User = User(id: string, name: string)

  /** An element whose text the handlers replace. */
  class TextElement {
    var textContent: string

    constructor (text: string)
      ensures textContent == text
    {
      textContent := text;
    }
  }

  /** A card's like button. */
  class LikeButton {
    var classList: set<string>

    constructor (classes: set<string>)
      ensures classList == classes
    {
      classList := classes;
    }
  }

  /** `likes.some((user) => user._id === userId)`. */
  function LikedBy(likes: seq<User>, userId: string): (r: bool)
    ensures r <==> exists i :: 0 <= i < |likes| && likes[i].id == userId
  {
    if likes == [] then false else likes[0].id == userId || LikedBy(likes[1..], userId)
  }

  function Digit(d: nat): (c: char)
    requires d < 10
    ensures '0' <= c <= '9'
  {
    ('0' as int + d) as char
  }

  /** The text a non-negative integer becomes when assigned to textContent: its decimal digits. */
  function DecimalString(n: nat): (s: string)
    ensures |s| > 0
    ensures forall i :: 0 <= i < |s| ==> '0' <= s[i] <= '9'
    ensures s[0] == '0' ==> n == 0 && |s| == 1
  {
    if n < 10 then [Digit(n)] else DecimalString(n / 10) + [Digit(n % 10)]
  }

  /** The number a string of decimal digits denotes. */
  function DecimalValue(s: string): nat
    requires forall i :: 0 <= i < |s| ==> '0' <= s[i] <= '9'
    decreases |s|
  {
    if s == [] then 0 else DecimalValue(s[..|s| - 1]) * 10 + (s[|s| - 1] as int - '0' as int)
  }

  /** Reading the shown count back gives the number of likes. */
  lemma {:induction false} DecimalRoundTrip(n: nat)
    ensures DecimalValue(DecimalString(n)) == n
  {
    var s := DecimalString(n);
    if n >= 10 {
      DecimalRoundTrip(n / 10);
      assert s[..|s| - 1] == DecimalString(n / 10);
    }
  }

  /** Different like counts are shown as different texts. */
  lemma DecimalInjective(m: nat, n: nat)
    requires DecimalString(m) == DecimalString(n)
    ensures m == n
  {
    DecimalRoundTrip(m);
    DecimalRoundTrip(n);
  }

  /** renderLoading: the pending label while loading, the button's own label otherwise. */
  method RenderLoading(button: TextElement, isLoading: bool, defaultText: string)
    modifies button
    ensures isLoading ==> button.textContent == SavingLabel
    ensures !isLoading ==> button.textContent == defaultText
  {
    button.textContent := if isLoading then SavingLabel else defaultText;
  }

  /**
   * The continuation of handleLikeCard: show the updated number of likes
   * and mark the button active exactly when the current user is among them.
   */
  method ApplyLikeResponse(likeButton: LikeButton, likeCount: TextElement, likes: seq<User>, currentUserId: string)
    modifies likeButton, likeCount
    ensures likeCount.textContent == DecimalString(|likes|)
    ensures LikeActiveClass in likeButton.classList <==> exists i :: 0 <= i < |likes| && likes[i].id == currentUserId
    ensures forall c :: c != LikeActiveClass ==> (c in likeButton.classList <==> c in old(likeButton.classList))
  {
    likeCount.textContent := DecimalString(|likes|);
    if LikedBy(likes, currentUserId) {
      likeButton.classList := likeButton.classList + {LikeActiveClass};
    } else {
      likeButton.classList := likeButton.classList - {LikeActiveClass};
    }
  }
}
