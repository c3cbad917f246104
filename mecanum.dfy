/** Values kept per wheel of the four-wheel mecanum drive. */
module Mecanum {
  /** One value per wheel, in the motor controller's numbering: front-left is motor 0,
      front-right 1, rear-left 2, rear-right 3. */
  datatype Wheels<T> = Wheels(fl: T, fr: T, rl: T, rr: T)
}
