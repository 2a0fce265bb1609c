/**
  The shared record shapes of the application: the stored user profile, whose
  measurement fields are all optional, and the computed health-metric snapshot.
  Identity and timestamp fields (uid, email, createdAt, updatedAt) play no part
  in any rule and are omitted.
*/
module UserTypes {
  import opened Js

  /** A user profile as read from the profile store; every field may be missing. */
  datatype Profile = Profile(
    age: Option<real>,
    gender: Option<string>,
    weight: Option<real>,                       // kilograms
    height: Option<real>,                       // centimetres
    dietaryPreferences: Option<seq<string>>,
    healthGoals: Option<seq<string>>,
    activityLevel: Option<string>)

  /** A computed BMI snapshot; `dailyCalories` is 0 when not computed. */
  datatype BMIData = BMIData(bmi: real, category: string, dailyCalories: int)
}
