/** The records and enumerations the application shares between its pages
    and services (types.ts). Amounts are whole UGX; dates are milliseconds
    since the epoch, with an empty date string standing as 0, which is what the
    application's `date || 0` fallbacks turn it into. */
module Domain {
  import opened Seqs

  /** `UserRole`; `Regular` is the role the application calls USER. */
  datatype UserRole = Guest | Regular | Creator | Admin

  datatype CampaignStatus = Pending | Approved | Suspended | Completed

  datatype PledgeStatus = Pending | Due | Fulfilled | Expired

  datatype PaymentMethod = Mtn | Airtel | Visa

  /** A signed-in user; `createdAt` is the profile's creation time, which the
      dashboard reads when the backend supplies it. */
  datatype User = User(
    id: string,
    fullName: string,
    email: string,
    role: UserRole,
    balance: int,
    createdAt: Option<int>)

  datatype Campaign = Campaign(
    id: string,
    ownerId: string,
    title: string,
    description: string,
    category: string,
    targetAmount: int,
    raisedAmount: int,
    pledgedAmount: int,
    imageUrls: seq<string>,
    startDate: int,
    endDate: int,
    status: CampaignStatus)

  /** A pledge. `category` is the category of the joined campaign row
      (`pledge.campaigns?.category`), absent when the row was not joined. */
  datatype Pledge = Pledge(
    id: string,
    userId: string,
    campaignId: string,
    amount: int,
    dueDate: int,
    status: PledgeStatus,
    createdAt: int,
    category: Option<string>)

  /** A donation; `category` as for `Pledge`. */
  datatype Donation = Donation(
    id: string,
    userId: string,
    campaignId: string,
    amount: int,
    paymentMethod: PaymentMethod,
    createdAt: int,
    category: Option<string>)
}
