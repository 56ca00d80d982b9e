/** The two pricing regions both pricing pages select between. */
module Regions {
  datatype Region = International | India
}
