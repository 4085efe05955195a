/** The records the services and pages pass around. */
module Records {
  import opened Wrappers

  datatype Address = Address(street: string, city: string, state: string, zipCode: string)

  /** A property listing. `bathrooms` may be fractional (1.5); `amenities` may be
      missing; `createdAt` is set only on records the property service creates. */
  datatype Property = Property(
    id: int,
    title: string,
    price: int,
    address: Address,
    bedrooms: int,
    bathrooms: real,
    squareFeet: int,
    propertyType: string,
    images: seq<string>,
    amenities: Option<seq<string>>,
    yearBuilt: int,
    status: string,
    featured: bool,
    createdAt: Option<int>)

  /** A favorites-store entry; `savedAt` is a timestamp passed in by the caller. */
  datatype Favorite = Favorite(propertyId: int, savedAt: int)
}
