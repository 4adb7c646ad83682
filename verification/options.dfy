/** An optional value: `None` stands for the absent ("null") case. */
module Options {

  datatype Option<+T> = None | Some(value: T)
}
