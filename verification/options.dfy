/** An optional value. In the recommender an absent school stands for the
    empty string that the choice functions return when no rule applies. */
module Options {

  datatype Option<+T> = None | Some(value: T)
}
