/**
  Rows of the restaurant database as the handlers read them. The database
  owns them; a handler only ever sees the rows one query returns.
 */
module Schema {

  datatype Restaurant = Restaurant(
    restaurantId: int,
    name: string,
    description: string,
    cuisine: string,
    location: string,
    phone: string,
    rating: real,
    openHours: string,
    deliveryOptions: string)

  /** A row of `Categories`. */
  datatype Category = Category(categoryId: int, restaurantId: int, categoryName: string)

  /** A row of `MenuItems`; `price` is kept as the text the driver hands over. */
  datatype MenuItem = MenuItem(
    itemId: int,
    restaurantId: int,
    categoryId: int,
    name: string,
    description: string,
    price: string)

  /** A row of `users`: the password column holds a bcrypt hash. */
  datatype User = User(id: int, email: string, passwordHash: string)
}
