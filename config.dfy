/**
 * Process-wide configuration of the app (src/config/constants.ts).
 * Only the values the classification pipeline reads are kept.
 */
module Config {

  /** Per-channel ImageNet mean, in R, G, B order. */
  const IMAGENET_MEAN: seq<real> := [0.485, 0.456, 0.406]

  /** Per-channel ImageNet standard deviation, in R, G, B order. */
  const IMAGENET_STD: seq<real> := [0.229, 0.224, 0.225]

  /** Minimum age of the last silent status before the same label is republished. */
  const CAMERA_STATUS_INTERVAL_MS: int := 900

  /** The fixed side length the model expects. */
  const INPUT_SIDE: nat := 224
}
