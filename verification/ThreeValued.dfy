/** Three-valued logic (section 8.12 of ISO/IEC 9075:1992). */
module ThreeValued {

  datatype Logic = True | False | Unknown

  function Not3(t: Logic): Logic {
    match t
    case True => False
    case False => True
    case Unknown => Unknown
  }

  function And3(a: Logic, b: Logic): Logic {
    if a.False? || b.False? then False
    else if a.Unknown? || b.Unknown? then Unknown
    else True
  }

  function Or3(a: Logic, b: Logic): Logic {
    Not3(And3(Not3(a), Not3(b)))
  }

  function Known(b: bool): Logic {
    if b then True else False
  }
}
