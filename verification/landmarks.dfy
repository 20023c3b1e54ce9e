/**
 * The records the iOS app loads from the backend: a landmark (a geo-tagged
 * point of interest) and the category it may reference.
 */
module Landmarks {
  import opened Wrappers

  datatype Category = Category(id: string, name: string, color: string, icon: string, sortOrder: int)

  datatype Landmark = Landmark(
    id: string,
    name: string,
    latitude: real,
    longitude: real,
    category: Option<Category>)
}
