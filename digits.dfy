/** The MNIST data as both halves of the program see it. */
module Digits {
  /** One flattened 28x28 image: its pixel values (0-255), row by row. */
  type Image = seq<int>
}
