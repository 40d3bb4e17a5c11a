/**
 * The anime details screen: the star row under the title and the "Watch Now"
 * button, which opens the player only when the settings are complete.
 */
module AnimeScreen {
  import opened KotlinMath
  import opened Config

  /** A star's tint. */
  datatype StarTint = Yellow | Gray

  /** `StarRating(rating)`: `rating / 10` stars (none for a negative count), star `i` yellow when `i < rating`. */
  function Stars(rating: int): (stars: seq<StarTint>)
    ensures rating >= 0 ==> |stars| == rating / 10
    ensures rating < 10 ==> stars == []
    ensures forall i :: 0 <= i < |stars| ==> stars[i] == Yellow
  {
    var count := TDiv(rating, 10);
    var n: nat := if count > 0 then count else 0;
    seq(n, i requires 0 <= i < n => if i < rating then Yellow else Gray)
  }

  /** The star count never exceeds ten for a score out of 100. */
  lemma StarsOfScore(rating: int)
    requires 0 <= rating <= 100
    ensures |Stars(rating)| <= 10
    ensures |Stars(rating)| * 10 <= rating < (|Stars(rating)| + 1) * 10
  {
  }

  /** The screen's dialog flag. */
  class AnimeScreenState {
    var showConfigError: bool

    constructor()
      ensures !showConfigError
    {
      showConfigError := false;
    }

    /** "Watch Now": open the player when the settings are valid, else show the configuration error. */
    method WatchClicked(m: ConfigManager) returns (openPlayer: bool)
      modifies this
      ensures openPlayer == IsValid(m.config)
      ensures showConfigError == (old(showConfigError) || !IsValid(m.config))
    {
      if m.Ready() {
        openPlayer := true;
      } else {
        openPlayer := false;
        showConfigError := true;
      }
    }

    /** "OK" or dismissing the dialog. */
    method DismissError()
      modifies this
      ensures !showConfigError
    {
      showConfigError := false;
    }
  }

  /** With the default settings the button only ever shows the error. */
  method WatchOnFirstStart() returns (openPlayer: bool, s: AnimeScreenState)
    ensures !openPlayer && s.showConfigError
  {
    var m := FirstStart();
    s := new AnimeScreenState();
    openPlayer := s.WatchClicked(m);
  }
}
