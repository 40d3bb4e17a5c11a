/** The earlier application window: size from the screen, and Ctrl+X to quit. */
module LegacyEntry {
  import opened Entry

  /** The window size for a screen: width and height are chosen independently. */
  function LegacyWindowSize(screenWidth: int, screenHeight: int): (s: Size)
    ensures s.width == 1920 <==> screenWidth >= 2560
    ensures s.width == 1280 <==> screenWidth < 2560
    ensures s.height == 1080 <==> screenHeight >= 1440
    ensures s.height == 720 <==> screenHeight < 1440
  {
    Size(if screenWidth >= 2560 then 1920 else 1280, if screenHeight >= 1440 then 1080 else 720)
  }

  /** A wide but short screen gets a window of neither standard shape. */
  lemma MixedSize()
    ensures LegacyWindowSize(2560, 1080) == Size(1920, 720)
    ensures LegacyWindowSize(2560, 1080) != FloatingSize && LegacyWindowSize(2560, 1080) != LargeSize
  {
  }

  /** The key handler: only Ctrl+X is consumed, and it exits. */
  predicate ExitKey(key: KeyName, ctrl: bool) {
    key == KeyX && ctrl
  }

  /** The earlier handler agrees with the current one on Ctrl+X and ignores Ctrl+S. */
  lemma ExitKeyAgrees(key: KeyName, ctrl: bool, animating: bool)
    ensures ExitKey(key, ctrl) <==> OnKey(key, ctrl, animating) == ExitApp
  {
  }
}
