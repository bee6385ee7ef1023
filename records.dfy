/** The rows the server routes read and write (users, phone numbers, orders,
    payments, KYC records, marketplace products, services, countries, the
    activity log and the chat log). Ids are the integers the storage assigns. */
module Records {
  import opened Base

  /** A registered user. `password` holds the stored credential, which the
      routes write as "hashed_" followed by the password. */
  datatype User = User(
    id: int,
    email: string,
    username: string,
    password: string,
    fullName: string,
    balance: int,
    referralCode: string,
    referredBy: Option<string>,
    referralCount: int,
    kycStatus: string,
    isAdmin: bool,
    isBanned: bool)

  /** A user as the routes send it back: every field except the password. */
  datatype PublicUser = PublicUser(
    id: int,
    email: string,
    username: string,
    fullName: string,
    balance: int,
    referralCode: string,
    referredBy: Option<string>,
    referralCount: int,
    kycStatus: string,
    isAdmin: bool,
    isBanned: bool)

  /** `const { password, ...userWithoutPassword } = user`. */
  function WithoutPassword(u: User): (p: PublicUser)
    ensures p.id == u.id && p.email == u.email && p.username == u.username
    ensures p.balance == u.balance && p.referralCount == u.referralCount
    ensures p.kycStatus == u.kycStatus && p.isAdmin == u.isAdmin && p.isBanned == u.isBanned
    ensures p.fullName == u.fullName && p.referralCode == u.referralCode && p.referredBy == u.referredBy
  {
    PublicUser(u.id, u.email, u.username, u.fullName, u.balance, u.referralCode,
               u.referredBy, u.referralCount, u.kycStatus, u.isAdmin, u.isBanned)
  }

  datatype PhoneNumber = PhoneNumber(
    id: int,
    number: string,
    country: string,
    price: int,
    isAvailable: bool)

  /** `createdAt` is null for rows written before the column was filled. */
  datatype Order = Order(
    id: int,
    userId: int,
    phoneNumberId: int,
    totalAmount: int,
    isReferralReward: bool,
    status: string,
    code: Option<string>,
    createdAt: Option<int>)

  /** `orderId` absent (or 0) marks a top-up of the user's balance. */
  datatype Payment = Payment(
    id: int,
    userId: int,
    orderId: Option<int>,
    amount: int,
    reference: string,
    status: string,
    createdAt: Option<int>)

  /** A KYC submission; `documents` stands for the submitted document fields. */
  datatype Kyc = Kyc(
    id: int,
    userId: int,
    status: string,
    documents: map<string, string>,
    createdAt: Option<int>)

  datatype Product = Product(
    id: int,
    userId: int,
    name: string,
    description: string,
    price: int,
    status: string,
    isAdminApproved: bool)

  datatype Service = Service(
    id: int,
    name: string,
    slug: string,
    description: string,
    icon: string,
    isActive: bool)

  datatype Country = Country(
    id: int,
    name: string,
    code: string,
    flag: string,
    isActive: bool)

  /** One entry of the append-only audit trail. */
  datatype Activity = Activity(userId: int, action: string, status: string)

  /** One stored exchange with the chat assistant. */
  datatype AiChat = AiChat(userId: int, message: string, response: string)
}
