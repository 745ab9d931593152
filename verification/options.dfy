/** The optional value the checkout uses wherever the page holds `null`. */
module Options {

  datatype Option<+T> = None | Some(value: T)

}
